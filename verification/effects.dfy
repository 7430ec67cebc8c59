/** Side effects the model records rather than performs: each call into a
    host (`navigate`, `remove`) is appended to a log in the order it is made. */
module Effects {

  /** `items.forEach(item => call(item))`: one call per item, in item order,
      each appended to `log`. */
  function ForEach<T>(log: seq<T>, items: seq<T>): (r: seq<T>)
    ensures r == log + items
    decreases |items|
  {
    if |items| == 0 then log
    else
      assert log + items == (log + [items[0]]) + items[1..];
      ForEach(log + [items[0]], items[1..])
  }
}
