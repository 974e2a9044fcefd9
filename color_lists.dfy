/**
  The primary (hue) stop list of a picker: the configured colour list,
  converted item by item to SKColor and appended to a List<SKColor> in
  iteration order.
*/
module ColorLists {
  import opened Skia

  /** The stops obtained by converting every item of `items`, in order. */
  function Converted<T>(items: seq<T>, convert: T -> SKColor): seq<SKColor>
  {
    if items == [] then []
    else Converted(items[..|items| - 1], convert) + [convert(items[|items| - 1])]
  }

  /** The k-th stop is the conversion of the k-th item and no stop is added or lost. */
  lemma {:induction false} ConvertedAt<T>(items: seq<T>, convert: T -> SKColor, k: nat)
    requires k < |items|
    ensures |Converted(items, convert)| == |items|
    ensures Converted(items, convert)[k] == convert(items[k])
  {
    var n := |items| - 1;
    if k < n {
      ConvertedAt(items[..n], convert, k);
    } else if n > 0 {
      ConvertedAt(items[..n], convert, 0);
    } else {
      assert items[..n] == [];
    }
  }

  /**
    The loop of the paint handlers: an empty List<SKColor>, then one Add per
    item of the colour list.
  */
  method ConvertAll<T>(items: seq<T>, convert: T -> SKColor) returns (colors: seq<SKColor>)
    ensures |colors| == |items|
    ensures forall k :: 0 <= k < |items| ==> colors[k] == convert(items[k])
    ensures colors == Converted(items, convert)
  {
    colors := [];
    var i := 0;
    while i < |items|
      invariant 0 <= i <= |items|
      invariant colors == Converted(items[..i], convert)
      invariant |colors| == i
      invariant forall k :: 0 <= k < i ==> colors[k] == convert(items[k])
    {
      assert items[..i + 1][..i] == items[..i];
      colors := colors + [convert(items[i])];
      i := i + 1;
    }
    assert items[..i] == items;
  }
}
