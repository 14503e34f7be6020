/** The provider's forecast records and their truncate-and-flatten projection
    into the flat items the `/api/weather` route returns to the browser. */
module Forecast {

  /** A Go `float64`, kept as its bit pattern: the values are only copied,
      so equality of bit patterns is exactly "copied without conversion". */
  type Float64 = bv64

  /** A Go `int` on a 64-bit platform. */
  newtype Int64 = x: int | -0x8000_0000_0000_0000 <= x < 0x8000_0000_0000_0000

  /** The nested `main` object of one provider entry. */
  datatype MainReading = MainReading(temp: Float64, feelsLike: Float64, humidity: Int64)

  /** One element of the provider's `list` array: a three-hour time slice. */
  datatype ForecastEntry = ForecastEntry(main: MainReading, pop: Float64, dtText: string)

  /** The decoded provider response: only its `list` is kept. */
  datatype ForecastResponse = ForecastResponse(list: seq<ForecastEntry>)

  /** The flat record exposed to clients, one per kept entry. */
  datatype Item = Item(dtTxt: string, temp: Float64, feelsLike: Float64, humidity: Int64, pop: Float64)

  /** Number of entries kept: the next 24 hours at three-hour granularity. */
  const MaxItems: nat := 8

  function Min(a: nat, b: nat): nat {
    if a <= b then a else b
  }

  /** Puts an item's fields back into the provider's nested shape. */
  function Unflatten(it: Item): ForecastEntry {
    ForecastEntry(MainReading(it.temp, it.feelsLike, it.humidity), it.pop, it.dtTxt)
  }

  /** Flattens and renames one entry's fields; no field is lost, since the
      nested entry can be rebuilt from the item, and no field is invented,
      since every item is the flattening of some entry. */
  function Flatten(e: ForecastEntry): (it: Item)
    ensures Unflatten(it) == e
    ensures Flatten(Unflatten(it)) == it
  {
    Item(e.dtText, e.main.temp, e.main.feelsLike, e.main.humidity, e.pop)
  }

  /** Flattens every entry of `entries`, in order; defined from the back so
      that it grows the way `append` grows the item slice. */
  function FlattenAll(entries: seq<ForecastEntry>): seq<Item> {
    if entries == [] then []
    else FlattenAll(entries[..|entries| - 1]) + [Flatten(entries[|entries| - 1])]
  }

  /** The items the route returns for a decoded forecast: the flattening of
      at most the first `MaxItems` entries. */
  function Present(entries: seq<ForecastEntry>): seq<Item> {
    FlattenAll(entries[..Min(MaxItems, |entries|)])
  }

  lemma {:induction false} FlattenAllLength(entries: seq<ForecastEntry>)
    ensures |FlattenAll(entries)| == |entries|
  {
    if entries != [] {
      FlattenAllLength(entries[..|entries| - 1]);
    }
  }

  /** Element `k` of the flattening is the flattening of entry `k`. */
  lemma {:induction false} FlattenAllAt(entries: seq<ForecastEntry>, k: nat)
    requires k < |entries|
    ensures |FlattenAll(entries)| == |entries|
    ensures FlattenAll(entries)[k] == Flatten(entries[k])
  {
    FlattenAllLength(entries);
    var n := |entries| - 1;
    if k < n {
      FlattenAllAt(entries[..n], k);
      FlattenAllLength(entries[..n]);
    }
  }

  /** Flattening commutes with taking a prefix: it never reorders entries. */
  lemma {:induction false} FlattenAllPrefix(entries: seq<ForecastEntry>, n: nat)
    requires n <= |entries|
    ensures |FlattenAll(entries)| == |entries|
    ensures FlattenAll(entries[..n]) == FlattenAll(entries)[..n]
  {
    FlattenAllLength(entries);
    if n < |entries| {
      var m := |entries| - 1;
      assert entries[..m][..n] == entries[..n];
      FlattenAllPrefix(entries[..m], n);
      FlattenAllLength(entries[..m]);
    } else {
      assert entries[..n] == entries;
    }
  }

  /** The truncate-and-flatten loop of the route handler: walks the entries
      in order, stops at index `MaxItems`, and appends one flat item per
      entry kept. */
  method PresentForecast(forecast: ForecastResponse) returns (items: seq<Item>)
    ensures items == Present(forecast.list)
    ensures |items| == Min(MaxItems, |forecast.list|)
    ensures forall k :: 0 <= k < |items| ==> items[k] == Flatten(forecast.list[k])
  {
    var list := forecast.list;
    items := [];
    var i := 0;
    while i < |list|
      invariant i <= |list| && i <= MaxItems
      invariant items == FlattenAll(list[..i])
    {
      if i >= MaxItems {
        break;
      }
      assert list[..i + 1][..i] == list[..i];
      items := items + [Flatten(list[i])];
      i := i + 1;
    }
    assert i == Min(MaxItems, |list|);
    PresentLength(list);
    forall k | 0 <= k < |items|
      ensures items[k] == Flatten(list[k])
    {
      PresentAt(list, k);
    }
  }

  /** The output has `min(8, |list|)` items. */
  lemma PresentLength(entries: seq<ForecastEntry>)
    ensures |Present(entries)| == Min(MaxItems, |entries|)
  {
    FlattenAllLength(entries[..Min(MaxItems, |entries|)]);
  }

  /** Item `k` carries entry `k`'s fields, copied one for one. */
  lemma PresentAt(entries: seq<ForecastEntry>, k: nat)
    requires k < Min(MaxItems, |entries|)
    ensures |Present(entries)| == Min(MaxItems, |entries|)
    ensures Present(entries)[k].dtTxt == entries[k].dtText
    ensures Present(entries)[k].temp == entries[k].main.temp
    ensures Present(entries)[k].feelsLike == entries[k].main.feelsLike
    ensures Present(entries)[k].humidity == entries[k].main.humidity
    ensures Present(entries)[k].pop == entries[k].pop
  {
    PresentLength(entries);
    FlattenAllAt(entries[..Min(MaxItems, |entries|)], k);
  }

  /** Every item gives back its entry exactly: nothing is converted or rounded. */
  lemma PresentRecoversEntries(entries: seq<ForecastEntry>)
    ensures |Present(entries)| <= |entries|
    ensures forall k :: 0 <= k < |Present(entries)| ==> Unflatten(Present(entries)[k]) == entries[k]
  {
    PresentLength(entries);
    forall k | 0 <= k < |Present(entries)|
      ensures Unflatten(Present(entries)[k]) == entries[k]
    {
      PresentAt(entries, k);
    }
  }

  /** Order is kept: the items are a prefix of the flattening of all entries. */
  lemma PresentIsPrefix(entries: seq<ForecastEntry>)
    ensures |Present(entries)| <= |FlattenAll(entries)|
    ensures Present(entries) == FlattenAll(entries)[..|Present(entries)|]
  {
    PresentLength(entries);
    FlattenAllPrefix(entries, Min(MaxItems, |entries|));
  }

  /** Entries at index `MaxItems` or above never influence the items:
      two lists that agree on their first eight entries present the same. */
  lemma PresentIgnoresTail(a: seq<ForecastEntry>, b: seq<ForecastEntry>)
    requires Min(MaxItems, |a|) == Min(MaxItems, |b|)
    requires forall k :: 0 <= k < Min(MaxItems, |a|) ==> a[k] == b[k]
    ensures Present(a) == Present(b)
  {
    var n := Min(MaxItems, |a|);
    assert a[..n] == b[..n];
  }

  /** Appending entries after the eighth changes nothing. */
  lemma PresentIgnoresAppended(entries: seq<ForecastEntry>, more: seq<ForecastEntry>)
    requires |entries| >= MaxItems
    ensures Present(entries + more) == Present(entries)
  {
    PresentIgnoresTail(entries + more, entries);
  }

  /** An empty forecast yields an empty (not absent) item list. */
  lemma PresentEmpty()
    ensures Present([]) == []
  {
  }
}
