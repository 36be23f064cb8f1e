/**
 * The field values of the records the document store and the wide-column
 * store return, the failures a step can raise, and the cells a report row
 * holds in place of rendered markup.
 */
module Values {
  import opened Wrappers
  import opened Text

  /** A field value: text, an integer, `None`, a list, or a dictionary (insertion-ordered). */
  datatype Value =
    | Str(s: string)
    | Int(i: int)
    | Null
    | List(items: seq<Value>)
    | Dict(entries: seq<(string, Value)>)

  /** A record returned by a store: a mapping from attribute names to values. */
  type Record = map<string, Value>

  /**
   * Why a step raised: the store raised, or a field was missing or of the
   * wrong kind (Python's KeyError, TypeError, AttributeError, IndexError and
   * ValueError).
   */
  datatype Fault =
    | StoreFault(message: string)
    | KeyFault(key: string)
    | TypeFault(context: string)
    | AttributeFault(context: string)
    | IndexFault(context: string)
    | ValueFault(context: string)

  /** One cell of a report row: text, text flagged in red, a yes/no mark, or a link. */
  datatype Cell =
    | Plain(text: string)
    | Alert(text: string)
    | Mark(yes: bool)
    | Link(url: string, text: string)

  /** A result whose fault, if any, was raised by the code itself and not by a store. */
  predicate Local<T>(r: Result<T, Fault>) {
    r.Err? ==> !r.error.StoreFault?
  }

  /** Python truthiness. */
  predicate Truthy(v: Value) {
    match v
    case Str(s) => s != ""
    case Int(i) => i != 0
    case Null => false
    case List(xs) => xs != []
    case Dict(es) => es != []
  }

  function KeysOf(es: seq<(string, Value)>): (ks: seq<string>)
    ensures |ks| == |es| && forall i :: 0 <= i < |es| ==> ks[i] == es[i].0
  {
    seq(|es|, i requires 0 <= i < |es| => es[i].0)
  }

  /** `d[k]` on a dictionary value: the entry for `k`. */
  function Lookup(es: seq<(string, Value)>, k: string): (r: Option<Value>)
    ensures r.Some? <==> k in KeysOf(es)
    ensures r.Some? ==> (k, r.value) in es
  {
    if es == [] then None
    else if es[0].0 == k then Some(es[0].1)
    else Lookup(es[1..], k)
  }

  /** `name in v`: a substring test on text, membership in a list, a key test on a dictionary. */
  function Contains(v: Value, name: string): (r: Result<bool, Fault>)
    ensures Local(r)
    ensures r.Ok? <==> !v.Int? && !v.Null?
  {
    match v
    case Str(s) => Ok(Occurs(s, name))
    case List(xs) => Ok(Str(name) in xs)
    case Dict(es) => Ok(name in KeysOf(es))
    case Int(_) => Err(TypeFault("argument of type 'int' is not iterable"))
    case Null => Err(TypeFault("argument of type 'NoneType' is not iterable"))
  }

  /** The strings `sep.join(v)` iterates over: the characters of text, the items of a list, the keys of a dictionary. */
  function Texts(v: Value): (r: Result<seq<string>, Fault>)
    ensures Local(r)
  {
    match v
    case Str(s) => Ok(seq(|s|, i requires 0 <= i < |s| => [s[i]]))
    case List(xs) =>
      if forall i :: 0 <= i < |xs| ==> xs[i].Str? then Ok(seq(|xs|, i requires 0 <= i < |xs| => xs[i].s))
      else Err(TypeFault("sequence item: expected str instance"))
    case Dict(es) => Ok(KeysOf(es))
    case Int(_) => Err(TypeFault("can only join an iterable"))
    case Null => Err(TypeFault("can only join an iterable"))
  }

  /** `str(v)`, as an f-string formats a value. */
  function Format(v: Value): string {
    match v
    case Str(s) => s
    case Int(i) => IntToString(i)
    case Null => "None"
    case List(_) => "<list>"
    case Dict(_) => "<dict>"
  }

  /** Fill each of `fields` missing from `row` with the empty string. */
  function Pad(row: Record, fields: seq<string>): (r: Record)
    decreases |fields|
    ensures r.Keys == row.Keys + set f | f in fields
    ensures forall k :: k in row ==> r[k] == row[k]
    ensures forall f :: f in fields && f !in row ==> r[f] == Str("")
  {
    if fields == [] then row
    else
      var next := if fields[0] in row then row else row[fields[0] := Str("")];
      assert (set f | f in fields) == {fields[0]} + set f | f in fields[1..];
      Pad(next, fields[1..])
  }

  /** The first of `fields` missing from `row`. */
  function FirstMissing(row: Record, fields: seq<string>): (r: Option<string>)
    ensures r.None? <==> forall f :: f in fields ==> f in row
    ensures r.Some? ==> r.value in fields && r.value !in row
  {
    if fields == [] then None
    else if fields[0] !in row then Some(fields[0])
    else FirstMissing(row, fields[1..])
  }

  /** The text a padded column shows: the record's text, or '' when the record lacks the column. */
  function Shown(row: Record, h: string): string {
    if h in row then Format(row[h]) else ""
  }

  /**
   * `'</td><td>'.join([row[h] for h in headers])`: every header is looked up
   * first (a missing one raises `KeyError`), then every value must be text.
   */
  function Render(row: Record, headers: seq<string>): (r: Result<seq<Cell>, Fault>)
    ensures r.Ok? <==> forall h :: h in headers ==> h in row && row[h].Str?
    ensures r.Ok? ==> |r.value| == |headers|
    ensures r.Ok? ==> forall i :: 0 <= i < |headers| ==> r.value[i] == Plain(row[headers[i]].s)
  {
    match FirstMissing(row, headers)
    case Some(h) => Err(KeyFault(h))
    case None => Joined(row, headers)
  }

  /** The join once every header is known to be present: one cell per header, or a `TypeError` on a value that is not text. */
  function Joined(row: Record, headers: seq<string>): (r: Result<seq<Cell>, Fault>)
    requires forall h :: h in headers ==> h in row
    ensures r.Ok? <==> forall h :: h in headers ==> row[h].Str?
    ensures r.Ok? ==> |r.value| == |headers|
    ensures r.Ok? ==> forall i :: 0 <= i < |headers| ==> r.value[i] == Plain(row[headers[i]].s)
    ensures r.Err? ==> r.error == TypeFault("sequence item: expected str instance")
  {
    if headers == [] then Ok([])
    else if !row[headers[0]].Str? then Err(TypeFault("sequence item: expected str instance"))
    else
      match Joined(row, headers[1..])
      case Err(e) => Err(e)
      case Ok(cs) => Ok([Plain(row[headers[0]].s)] + cs)
  }

  /** Joining the columns of a record never hits a store. */
  lemma RenderLocal(row: Record, headers: seq<string>)
    ensures Local(Render(row, headers))
  {
  }

  /** `v[k]` with a text key: only a dictionary can answer it. */
  function Item(v: Value, k: string): (r: Result<Value, Fault>)
    ensures r.Ok? <==> v.Dict? && k in KeysOf(v.entries)
    ensures r.Ok? ==> (k, r.value) in v.entries && Lookup(v.entries, k) == Some(r.value)
    ensures Local(r)
  {
    match v
    case Dict(es) => (match Lookup(es, k) case Some(x) => Ok(x) case None => Err(KeyFault(k)))
    case Str(_) => Err(TypeFault("string indices must be integers"))
    case List(_) => Err(TypeFault("list indices must be integers or slices, not str"))
    case Int(_) => Err(TypeFault("'int' object is not subscriptable"))
    case Null => Err(TypeFault("'NoneType' object is not subscriptable"))
  }

  /** `v[0]`: the first item of a list or the first character of text. */
  function First(v: Value): (r: Result<Value, Fault>)
    ensures v.List? && v.items != [] ==> r == Ok(v.items[0])
    ensures v.Str? && v.s != "" ==> r == Ok(Str([v.s[0]]))
    ensures r.Ok? ==> (v.List? && v.items != []) || (v.Str? && v.s != "")
    ensures Local(r)
  {
    match v
    case List(xs) => if xs == [] then Err(IndexFault("list index out of range")) else Ok(xs[0])
    case Str(s) => if s == "" then Err(IndexFault("string index out of range")) else Ok(Str([s[0]]))
    case Dict(_) => Err(KeyFault("0"))
    case Int(_) => Err(TypeFault("'int' object is not subscriptable"))
    case Null => Err(TypeFault("'NoneType' object is not subscriptable"))
  }

  /** The values of a run of per-record results, or the fault of the first record that failed. */
  function Collect<T>(rs: seq<Result<T, Fault>>): (r: Result<seq<T>, Fault>)
    ensures r.Ok? <==> forall i :: 0 <= i < |rs| ==> rs[i].Ok?
    ensures r.Ok? ==> |r.value| == |rs| && forall i :: 0 <= i < |rs| ==> rs[i] == Ok(r.value[i])
  {
    if rs == [] then Ok([])
    else match rs[0]
      case Err(e) => Err(e)
      case Ok(v) =>
        match Collect(rs[1..])
        case Err(e) => Err(e)
        case Ok(vs) => Ok([v] + vs)
  }

  /** A run whose first failure is at `i` fails with that record's fault. */
  lemma {:induction false} CollectStops<T>(rs: seq<Result<T, Fault>>, i: nat)
    requires i < |rs| && rs[i].Err?
    requires forall j :: 0 <= j < i ==> rs[j].Ok?
    ensures Collect(rs) == Err(rs[i].error)
    decreases i
  {
    if i > 0 {
      CollectStops(rs[1..], i - 1);
    }
  }

  /** A run of records none of which hit a store fails, if at all, without a store fault. */
  lemma {:induction false} CollectLocal<T>(rs: seq<Result<T, Fault>>)
    requires forall i :: 0 <= i < |rs| ==> Local(rs[i])
    ensures Local(Collect(rs))
  {
    if rs != [] && rs[0].Ok? {
      CollectLocal(rs[1..]);
    }
  }

  /** `[f(x) for x in xs]`. */
  function Each<A, B>(f: A -> B, xs: seq<A>): (ys: seq<B>)
    ensures |ys| == |xs|
  {
    if xs == [] then [] else [f(xs[0])] + Each(f, xs[1..])
  }

  /** The `i`-th result is `f` of the `i`-th element. */
  lemma {:induction false} EachAt<A, B>(f: A -> B, xs: seq<A>, i: nat)
    requires i < |xs|
    ensures Each(f, xs)[i] == f(xs[i])
  {
    if i > 0 {
      EachAt(f, xs[1..], i - 1);
    }
  }

  /** Mapping two runs one after the other. */
  lemma {:induction false} EachAppend<A, B>(f: A -> B, xs: seq<A>, ys: seq<A>)
    ensures Each(f, xs + ys) == Each(f, xs) + Each(f, ys)
  {
    if xs == [] {
      assert xs + ys == ys;
    } else {
      assert (xs + ys)[0] == xs[0] && (xs + ys)[1..] == xs[1..] + ys;
      EachAppend(f, xs[1..], ys);
    }
  }

  /** Mapping the first `i + 1` elements: the first `i`, then the next. */
  lemma EachNext<A, B>(f: A -> B, xs: seq<A>, i: nat)
    requires i < |xs|
    ensures Each(f, xs[..i + 1]) == Each(f, xs[..i]) + [f(xs[i])]
  {
    assert xs[..i + 1] == xs[..i] + [xs[i]];
    EachAppend(f, xs[..i], [xs[i]]);
  }

  /** Mapping all elements: the first `i`, then the rest. */
  lemma EachSplit<A, B>(f: A -> B, xs: seq<A>, i: nat)
    requires i <= |xs|
    ensures Each(f, xs) == Each(f, xs[..i]) + Each(f, xs[i..])
  {
    assert xs == xs[..i] + xs[i..];
    EachAppend(f, xs[..i], xs[i..]);
  }

  /** All the elements, as a prefix. */
  lemma EachWhole<A, B>(f: A -> B, xs: seq<A>)
    ensures Each(f, xs[..|xs|]) == Each(f, xs)
  {
    assert xs[..|xs|] == xs;
  }

  /** One more result: a failure so far stays, otherwise the new result decides. */
  lemma {:induction false} CollectSnoc<T>(rs: seq<Result<T, Fault>>, x: Result<T, Fault>)
    ensures Collect(rs + [x]) ==
      if Collect(rs).Err? then Collect(rs)
      else if x.Err? then Err(x.error)
      else Ok(Collect(rs).value + [x.value])
  {
    if rs == [] {
      assert rs + [x] == [x] && [x][1..] == [];
      assert Collect([x][1..]) == Ok([]);
      if x.Ok? {
        assert Collect(rs).value + [x.value] == [x.value] + [];
      }
    } else {
      assert (rs + [x])[0] == rs[0] && (rs + [x])[1..] == rs[1..] + [x];
      CollectSnoc(rs[1..], x);
      if Collect(rs).Ok? && x.Ok? {
        assert [rs[0].value] + (Collect(rs[1..]).value + [x.value]) == ([rs[0].value] + Collect(rs[1..]).value) + [x.value];
      }
    }
  }

  /** A run that has failed fails the same way, whatever follows it. */
  lemma {:induction false} CollectErrPrefix<T>(rs: seq<Result<T, Fault>>, ys: seq<Result<T, Fault>>)
    requires Collect(rs).Err?
    ensures Collect(rs + ys) == Collect(rs)
  {
    assert rs != [];
    assert (rs + ys)[0] == rs[0];
    if rs[0].Ok? {
      assert (rs + ys)[1..] == rs[1..] + ys;
      CollectErrPrefix(rs[1..], ys);
    }
  }

  /**
   * One more record of a run whose prefix succeeded: a failure decides the
   * whole run, a success extends the values.
   */
  lemma CollectEachStep<A, T>(f: A -> Result<T, Fault>, xs: seq<A>, i: nat, vs: seq<T>)
    requires i < |xs| && Collect(Each(f, xs[..i])) == Ok(vs)
    ensures f(xs[i]).Ok? ==> Collect(Each(f, xs[..i + 1])) == Ok(vs + [f(xs[i]).value])
    ensures f(xs[i]).Err? ==> Collect(Each(f, xs)) == Err(f(xs[i]).error)
  {
    EachNext(f, xs, i);
    CollectSnoc(Each(f, xs[..i]), f(xs[i]));
    if f(xs[i]).Err? {
      EachSplit(f, xs, i + 1);
      CollectErrPrefix(Each(f, xs[..i + 1]), Each(f, xs[i + 1..]));
    }
  }

  /** A run in which every record succeeded collects exactly their values. */
  lemma CollectAll<T>(rs: seq<Result<T, Fault>>, vs: seq<T>)
    requires |vs| == |rs| && forall i :: 0 <= i < |rs| ==> rs[i] == Ok(vs[i])
    ensures Collect(rs) == Ok(vs)
  {
    var r := Collect(rs);
    assert r.Ok?;
    assert forall i :: 0 <= i < |rs| ==> r.value[i] == vs[i];
    assert r.value == vs;
  }

  predicate NoDup<T(==)>(xs: seq<T>) {
    forall i, j :: 0 <= i < j < |xs| ==> xs[i] != xs[j]
  }

  /** The first occurrence of each element, in the order of first appearance. */
  function Distinct<T(==)>(xs: seq<T>): seq<T> {
    if xs == [] then []
    else
      var init := xs[..|xs| - 1];
      Distinct(init) + (if xs[|xs| - 1] in init then [] else [xs[|xs| - 1]])
  }

  /** Deduplication keeps exactly the elements it was given, each once. */
  lemma {:induction false} DistinctElements<T>(xs: seq<T>)
    ensures forall x :: x in Distinct(xs) <==> x in xs
    ensures NoDup(Distinct(xs))
    decreases |xs|
  {
    if xs != [] {
      var init := xs[..|xs| - 1];
      DistinctElements(init);
      assert xs == init + [xs[|xs| - 1]];
    }
  }

  /** One more element is appended exactly when it has not been kept already. */
  lemma DistinctSnoc<T>(xs: seq<T>, x: T)
    ensures Distinct(xs + [x]) == Distinct(xs) + (if x in Distinct(xs) then [] else [x])
  {
    assert (xs + [x])[..|xs + [x]| - 1] == xs;
    DistinctElements(xs);
  }

  /** Appending elements only ever appends to the deduplicated sequence: first-seen order is kept. */
  lemma {:induction false} DistinctPrefix<T>(xs: seq<T>, ys: seq<T>)
    ensures Distinct(xs) <= Distinct(xs + ys)
    decreases |ys|
  {
    if ys != [] {
      var init := ys[..|ys| - 1];
      DistinctPrefix(xs, init);
      assert xs + ys == (xs + init) + [ys[|ys| - 1]];
      DistinctSnoc(xs + init, ys[|ys| - 1]);
    } else {
      assert xs + ys == xs;
    }
  }

  /** Deduplication keeps the first element first. */
  lemma DistinctFirst<T>(xs: seq<T>)
    requires xs != []
    ensures Distinct(xs) != [] && Distinct(xs)[0] == xs[0]
  {
    DistinctPrefix([xs[0]], xs[1..]);
    assert [xs[0]] + xs[1..] == xs;
    assert Distinct([xs[0]]) == [xs[0]] by {
      assert [xs[0]][..0] == [];
    }
  }
}
