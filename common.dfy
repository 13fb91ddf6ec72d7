/** Shared value types of the dump engine: optional values, results, the
    errors the engine can report, and the shape of a query result as the
    renderers consume it. */
module Common {

  datatype Option<+T> = None | Some(value: T)

  /** What can go wrong. Texts that come from the database or the file
      system are kept as opaque strings; errors that the Go standard library
      raises while scanning are named (a row of `values` columns scanned
      into `destinations` targets); `fmt.Errorf("<context>: %v", err)`
      becomes `Wrapped(context, err)`. */
  datatype Error =
    | DriverError(text: string)
    | NullIntoString
    | ColumnCountMismatch(values: nat, destinations: nat)
    | Wrapped(context: string, inner: Error)

  datatype Result<+T> = Ok(value: T) | Err(error: Error)

  /** The outcome of `db.Query(...)`: either the query (or `rows.Columns()`)
      failed, or it produced result columns, the rows delivered by
      `rows.Next()`, and the error `rows.Err()` reports once iteration
      stops. */
  datatype Query<R> =
    | Failed(cause: string)
    | Rows(columns: seq<string>, rows: seq<R>, iterErr: Option<string>)

  /** Scanning one nullable column into a Go `string` destination. */
  function ScanString(v: Option<string>): (r: Result<string>)
    ensures r.Ok? <==> v.Some?
    ensures v.Some? ==> r.value == v.value
    ensures v.None? ==> r.error == NullIntoString
  {
    match v
    case None => Err(NullIntoString)
    case Some(s) => Ok(s)
  }

  /** Concatenation is associative; stating it where a text or trace grows
      saves the solver from rediscovering it element by element. */
  lemma {:induction false} Associative<T>(a: seq<T>, b: seq<T>, c: seq<T>)
    ensures a + b + c == a + (b + c)
  {
  }

  lemma TakeAll<T>(s: seq<T>)
    ensures s[..|s|] == s
  {
  }

  /** A prefix one longer is the prefix and the next element. */
  lemma TakeSnoc<T>(s: seq<T>, i: nat)
    requires i < |s|
    ensures s[..i + 1] == s[..i] + [s[i]]
  {
  }

  /** What a loop of "render one item, write it and a blank line, return
      at the first error" has written, and the error it returned. */
  datatype WriteOutcome = WriteOutcome(written: string, err: Option<Error>)

  function WriteEach(items: seq<string>, render: string -> Result<string>): WriteOutcome
  {
    if |items| == 0 then WriteOutcome("", None)
    else
      var prev := WriteEach(items[..|items| - 1], render);
      if prev.err.Some? then prev
      else
        match render(items[|items| - 1])
        case Err(e) => WriteOutcome(prev.written, Some(e))
        case Ok(text) => WriteOutcome(prev.written + text + "\n\n", None)
  }

  /** Once an item has failed, no later item is rendered or written. */
  lemma {:induction false} WriteEachStops(p: seq<string>, q: seq<string>, render: string -> Result<string>)
    requires WriteEach(p, render).err.Some?
    ensures WriteEach(p + q, render) == WriteEach(p, render)
    decreases |q|
  {
    if |q| > 0 {
      var q' := q[..|q| - 1];
      assert (p + q)[..|p + q| - 1] == p + q';
      WriteEachStops(p, q', render);
    } else {
      assert p + q == p;
    }
  }

  /** The loop succeeds exactly when every item renders. */
  lemma {:induction false} WriteEachSucceeds(items: seq<string>, render: string -> Result<string>)
    ensures WriteEach(items, render).err.None? <==>
      forall k :: 0 <= k < |items| ==> render(items[k]).Ok?
  {
    if |items| > 0 {
      var init := items[..|items| - 1];
      WriteEachSucceeds(init, render);
      assert forall k :: 0 <= k < |init| ==> init[k] == items[k];
    }
  }

  /** The error returned is the first failing item's, and what was written
      is exactly what the items before it wrote. */
  lemma {:induction false} WriteEachFirstError(items: seq<string>, render: string -> Result<string>, k: nat)
    requires k < |items| && render(items[k]).Err?
    requires forall j :: 0 <= j < k ==> render(items[j]).Ok?
    ensures WriteEach(items, render) ==
      WriteOutcome(WriteEach(items[..k], render).written, Some(render(items[k]).error))
  {
    var p, before, rest := items[..k + 1], items[..k], items[k + 1..];
    assert forall j :: 0 <= j < |before| ==> render(before[j]).Ok? by {
      forall j | 0 <= j < |before| ensures render(before[j]).Ok? {
        assert before[j] == items[j];
      }
    }
    WriteEachSucceeds(before, render);
    var wb := WriteEach(before, render);
    assert p == before + [items[k]];
    WriteEachSnoc(before, items[k], render);
    WriteEachStops(p, rest, render);
    assert p + rest == items;
  }

  /** One more item after a run that has not failed. */
  lemma {:induction false} WriteEachSnoc(init: seq<string>, x: string, render: string -> Result<string>)
    requires WriteEach(init, render).err.None?
    ensures var prev := WriteEach(init, render);
      WriteEach(init + [x], render) ==
        match render(x)
        case Err(e) => WriteOutcome(prev.written, Some(e))
        case Ok(text) => WriteOutcome(prev.written + text + "\n\n", None)
  {
    assert (init + [x])[..|init|] == init;
  }

  /** When everything renders, the text written for two runs of items is
      the text of the first followed by that of the second: items are
      written in order. */
  lemma {:induction false} WriteEachAppend(a: seq<string>, b: seq<string>, render: string -> Result<string>)
    requires forall k :: 0 <= k < |a| + |b| ==> render((a + b)[k]).Ok?
    ensures WriteEach(a + b, render).written == WriteEach(a, render).written + WriteEach(b, render).written
    decreases |b|
  {
    if |b| > 0 {
      var b' := b[..|b| - 1];
      assert (a + b)[..|a + b| - 1] == a + b';
      assert forall k :: 0 <= k < |a| + |b'| ==> (a + b')[k] == (a + b)[k];
      WriteEachAppend(a, b', render);
      WriteEachSucceeds(a + b', render);
      WriteEachSucceeds(b', render);
      assert forall k :: 0 <= k < |b'| ==> b'[k] == (a + b)[|a| + k];
      assert forall k :: 0 <= k < |a| ==> a[k] == (a + b)[k];
      WriteEachSucceeds(a, render);
    } else {
      assert a + b == a;
    }
  }
}
