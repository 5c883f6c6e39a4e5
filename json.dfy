/** JavaScript objects as the handlers build, read and persist them.

    An object is the ordered list of its own properties, so that `Object.values`,
    property assignment and the positional parameters of a parameterised SQL
    statement can be stated exactly. */
module Json {

  datatype Option<T> = None | Some(value: T)

  /** A property value. JavaScript has a single number type; whole numbers
      (epoch milliseconds, row ids) and fractional ones (coordinates) are kept
      apart. `Null` is a SQL `NULL` read back from a row. */
  datatype Value = Text(s: string) | Int(i: int) | Real(r: real) | Null

  datatype Field = Field(key: string, value: Value)

  /** An object's own properties, in insertion order. */
  type Object = seq<Field>

  /** `Object.keys(o)`. */
  function Keys(o: Object): seq<string>
  {
    seq(|o|, i requires 0 <= i < |o| => o[i].key)
  }

  /** `Object.values(o)`. */
  function Values(o: Object): seq<Value>
  {
    seq(|o|, i requires 0 <= i < |o| => o[i].value)
  }

  predicate Distinct(ks: seq<string>)
  {
    forall i, j :: 0 <= i < j < |ks| ==> ks[i] != ks[j]
  }

  /** Property read `o[k]`; `None` is `undefined`. */
  function Get(o: Object, k: string): Option<Value>
  {
    if o == [] then None
    else if o[0].key == k then Some(o[0].value)
    else Get(o[1..], k)
  }

  /** Property assignment `o[k] = v`: an existing property keeps its place and
      takes the new value; a new key that is not an array index (every key
      the handlers assign) goes to the end. */
  function Set(o: Object, k: string, v: Value): (r: Object)
    ensures Get(r, k) == Some(v)
    ensures forall k' :: k' != k ==> Get(r, k') == Get(o, k')
    ensures Get(o, k).Some? ==> Keys(r) == Keys(o)
    ensures Get(o, k) == None ==> r == o + [Field(k, v)]
  {
    if o == [] then [Field(k, v)]
    else if o[0].key == k then [Field(k, v)] + o[1..]
    else
      var rest := Set(o[1..], k, v);
      assert Keys([o[0]] + rest) == [o[0].key] + Keys(rest);
      assert Keys(o) == [o[0].key] + Keys(o[1..]);
      [o[0]] + rest
  }

  /** The row that `INSERT INTO t (cols) VALUES ($1, ..., $n)` stores when the
      parameter array is `vals`: the k-th column receives the k-th value. */
  function Bind(cols: seq<string>, vals: seq<Value>): (row: Object)
    requires |cols| == |vals|
  {
    seq(|cols|, i requires 0 <= i < |cols| => Field(cols[i], vals[i]))
  }

  /** In an object whose keys are distinct, reading the key of the i-th
      property yields that property's value. */
  lemma {:induction false} GetAt(o: Object, i: nat)
    requires i < |o| && Distinct(Keys(o))
    ensures Get(o, o[i].key) == Some(o[i].value)
  {
    if i > 0 {
      assert Keys(o)[0] != Keys(o)[i];
      assert Keys(o[1..]) == Keys(o)[1..];
      GetAt(o[1..], i - 1);
    }
  }

  /** Reading a key the object does not have yields `undefined`. */
  lemma {:induction false} GetAbsent(o: Object, k: string)
    requires k !in Keys(o)
    ensures Get(o, k) == None
  {
    if o != [] {
      assert Keys(o)[0] == o[0].key;
      assert Keys(o[1..]) == Keys(o)[1..];
      GetAbsent(o[1..], k);
    }
  }

  /** Positional binding is by name: column cols[i] of the inserted row holds
      the i-th parameter. */
  lemma BindGet(cols: seq<string>, vals: seq<Value>, i: nat)
    requires |cols| == |vals| && Distinct(cols) && i < |cols|
    ensures Get(Bind(cols, vals), cols[i]) == Some(vals[i])
  {
    assert Keys(Bind(cols, vals)) == cols;
    GetAt(Bind(cols, vals), i);
  }

  /** A column that the insert does not name is absent from the row. */
  lemma BindMissing(cols: seq<string>, vals: seq<Value>, k: string)
    requires |cols| == |vals| && k !in cols
    ensures Get(Bind(cols, vals), k) == None
  {
    assert Keys(Bind(cols, vals)) == cols;
    GetAbsent(Bind(cols, vals), k);
  }
}
