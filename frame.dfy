/**
 * The one-row pandas frame built from the transaction dict, and the two
 * things both forms do to it: turn the categorical columns into text, one
 * column at a time, and then select the feature columns in schema order.
 */
module Frame {
  import opened Wrappers
  import opened Values
  import opened Schema

  /** A column of the one-row frame: its name and its single cell. */
  type Column = (string, Value)

  /** The frame, its columns in order; a dict literal gives them in insertion order. */
  type Row = seq<Column>

  /** pandas' KeyError, with the column names it reports as missing. */
  datatype KeyError = KeyError(missing: seq<string>)

  function Names(r: Row): seq<string>
  {
    seq(|r|, i requires 0 <= i < |r| => r[i].0)
  }

  /** `df[name]` for one column name: the cell of the first column of that name. */
  function Lookup(r: Row, name: string): (v: Option<Value>)
    ensures v.Some? <==> name in Names(r)
  {
    if r == [] then None
    else
      assert Names(r) == [r[0].0] + Names(r[1..]);
      if r[0].0 == name then Some(r[0].1) else Lookup(r[1..], name)
  }

  /** In a frame whose column names are distinct, a name finds its own column. */
  lemma {:induction false} LookupAt(r: Row, i: nat)
    requires Distinct(Names(r)) && i < |r|
    ensures Lookup(r, r[i].0) == Some(r[i].1)
  {
    if i > 0 {
      assert Names(r[1..]) == Names(r)[1..];
      assert r[0].0 == Names(r)[0] != Names(r)[i] == r[i].0;
      LookupAt(r[1..], i - 1);
    }
  }

  /** What `astype(str)` leaves in a cell of column `name` when `cats` are the converted columns. */
  function Coerced(name: string, v: Value, cats: seq<string>): Value
  {
    if name in cats then ToText(v) else v
  }

  /**
   * The frame after `df[col] = df[col].astype(str)` for every `col` in
   * `cats`: the named columns hold text, every other column is untouched,
   * and the columns are where they were.
   */
  function Stringify(r: Row, cats: seq<string>): (s: Row)
    ensures Names(s) == Names(r)
    ensures forall i :: 0 <= i < |r| && r[i].0 in cats ==> IsText(s[i].1)
    ensures forall i :: 0 <= i < |r| && r[i].0 !in cats ==> s[i] == r[i]
    ensures forall i :: 0 <= i < |r| && IsText(r[i].1) ==> s[i] == r[i]
  {
    seq(|r|, i requires 0 <= i < |r| => (r[i].0, Coerced(r[i].0, r[i].1, cats)))
  }

  /** Converting column after column is converting all of them together. */
  lemma StringifyStep(r: Row, done: seq<string>, c: string)
    ensures Stringify(Stringify(r, done), [c]) == Stringify(r, done + [c])
  {
    var lhs, rhs := Stringify(Stringify(r, done), [c]), Stringify(r, done + [c]);
    forall i | 0 <= i < |r| ensures lhs[i] == rhs[i] {
      ToTextIdempotent(r[i].1);
    }
  }

  /** The conversion is idempotent: a second pass changes nothing. */
  lemma StringifyIdempotent(r: Row, cats: seq<string>)
    ensures Stringify(Stringify(r, cats), cats) == Stringify(r, cats)
  {
    var once := Stringify(r, cats);
    forall i | 0 <= i < |r| ensures Stringify(once, cats)[i] == once[i] {
      ToTextIdempotent(r[i].1);
    }
  }

  /** A frame whose categorical columns already hold text is left exactly as it is. */
  lemma StringifyTextIsIdentity(r: Row, cats: seq<string>)
    requires forall i :: 0 <= i < |r| && r[i].0 in cats ==> IsText(r[i].1)
    ensures Stringify(r, cats) == r
  {
    var s := Stringify(r, cats);
    forall i | 0 <= i < |r| ensures s[i] == r[i] {
    }
  }

  /** The one cell column `name` holds after the conversion, in terms of the frame before it. */
  lemma {:induction false} LookupStringify(r: Row, cats: seq<string>, name: string)
    requires name in Names(r)
    ensures Lookup(Stringify(r, cats), name) == Some(Coerced(name, Lookup(r, name).value, cats))
  {
    var s := Stringify(r, cats);
    assert Names(r) == [r[0].0] + Names(r[1..]);
    if r[0].0 != name {
      assert s[1..] == Stringify(r[1..], cats);
      LookupStringify(r[1..], cats, name);
    }
  }

  /**
   * The categorical loop of both forms: `df[col] = df[col].astype(str)` for
   * each `col` of `cats` in turn. A column that is missing stops the loop
   * with pandas' KeyError naming it, so the error names the first missing
   * column of `cats`.
   */
  method CoerceCategorical(df: Row, cats: seq<string>) returns (res: Result<Row, KeyError>)
    ensures res.Ok? <==> forall c :: c in cats ==> c in Names(df)
    ensures res.Ok? ==> res.value == Stringify(df, cats)
    ensures res.Err? ==> exists k :: (0 <= k < |cats| && res.error == KeyError([cats[k]])
                                      && cats[k] !in Names(df)
                                      && forall j :: 0 <= j < k ==> cats[j] in Names(df))
  {
    var out := df;
    var i := 0;
    while i < |cats|
      invariant 0 <= i <= |cats|
      invariant out == Stringify(df, cats[..i])
      invariant forall j :: 0 <= j < i ==> cats[j] in Names(df)
    {
      var col := cats[i];
      if Lookup(out, col).None? {
        return Err(KeyError([col]));
      }
      StringifyStep(df, cats[..i], col);
      assert cats[..i + 1] == cats[..i] + [col];
      out := Stringify(out, [col]);
      i := i + 1;
    }
    assert cats[..i] == cats;
    return Ok(out);
  }

  /** The names of `cols` that are not among `names`, in the order of `cols`. */
  function MissingNames(cols: seq<string>, names: seq<string>): (m: seq<string>)
    ensures forall c :: c in m <==> c in cols && c !in names
    ensures (forall c :: c in cols ==> c in names) ==> m == []
  {
    if cols == [] then []
    else (if cols[0] in names then [] else [cols[0]]) + MissingNames(cols[1..], names)
  }

  /**
   * `df[cols]`: a frame of exactly the columns `cols`, in that order, each
   * holding the cell of the column of that name; if any is missing, the
   * KeyError lists every missing name.
   */
  function Select(r: Row, cols: seq<string>): (res: Result<Row, KeyError>)
    ensures res.Ok? <==> forall c :: c in cols ==> c in Names(r)
    ensures res.Ok? ==> (Names(res.value) == cols
                         && forall i :: 0 <= i < |cols| ==> Lookup(r, cols[i]) == Some(res.value[i].1))
    ensures res.Err? ==> res.error.missing == MissingNames(cols, Names(r))
  {
    if cols == [] then
      assert Names([]) == [];
      Ok([])
    else
      var rest := Select(r, cols[1..]);
      match Lookup(r, cols[0])
      case None =>
        Err(KeyError([cols[0]] + if rest.Err? then rest.error.missing else []))
      case Some(v) =>
        if rest.Err? then rest
        else
          var s := [(cols[0], v)] + rest.value;
          assert Names(s) == [cols[0]] + Names(rest.value);
          assert cols == [cols[0]] + cols[1..];
          Ok(s)
  }

  /** Selecting a frame's own columns, when their names are distinct, gives back the same frame. */
  lemma SelectOwnNames(r: Row)
    requires Distinct(Names(r))
    ensures Select(r, Names(r)) == Ok(r)
  {
    var s := Select(r, Names(r)).value;
    assert |s| == |Names(s)| == |r|;
    forall i | 0 <= i < |r| ensures s[i] == r[i] {
      LookupAt(r, i);
      assert s[i].0 == Names(s)[i] == r[i].0;
    }
    assert s == r;
  }

  /**
   * Lines 112-115 of both forms: the categorical loop, then `df[features]`.
   * The result is there exactly when every categorical and every feature
   * column exists. It then has the feature columns in order, each holding the
   * original cell, turned into text when the column is categorical.
   */
  method Prepare(row: Row, cats: seq<string>, features: seq<string>) returns (res: Result<Row, KeyError>)
    ensures res.Ok? <==> ((forall c :: c in cats ==> c in Names(row))
                          && (forall c :: c in features ==> c in Names(row)))
    ensures res.Ok? ==> (Names(res.value) == features
                         && forall i :: 0 <= i < |features| ==>
                              && Lookup(row, features[i]).Some?
                              && res.value[i].1 == Coerced(features[i], Lookup(row, features[i]).value, cats))
    ensures res.Err? ==> (|res.error.missing| > 0
                          && forall m :: m in res.error.missing ==> m !in Names(row))
  {
    var coerced := CoerceCategorical(row, cats);
    if coerced.Err? {
      return Err(coerced.error);
    }
    res := Select(coerced.value, features);
    if res.Ok? {
      forall i | 0 <= i < |features|
        ensures res.value[i].1 == Coerced(features[i], Lookup(row, features[i]).value, cats)
      {
        LookupStringify(row, cats, features[i]);
      }
    } else {
      assert exists c :: c in features && c !in Names(row);
    }
  }
}
