/** The knowledge base the classifier reads and the spreadsheet importer
    writes: one protocol per root symptom, with its mandatory questions,
    general recommendations and classification rules. Also the answers
    dictionary the patient fills in. */
module Knowledge {
  import opened Wrappers

  /** A dynamically typed value: an answer in the answers dictionary or a
      worksheet cell. A Python `str` is kept as is; any other value is kept
      as its `str()` rendering and its truthiness (`None` is
      `Other("None", false)`, `True` is `Other("True", true)`, `0` is
      `Other("0", false)`). */
  datatype Value = Str(s: string) | Other(text: string, truthy: bool) {
    /** `str(value)` */
    function Render(): string {
      match this
      case Str(s) => s
      case Other(t, _) => t
    }

    /** `bool(value)` */
    predicate Truthy() {
      match this
      case Str(s) => s != []
      case Other(_, b) => b
    }
  }

  datatype Question = Question(id: string, text: string, answerType: string, weight: real)

  /** `condiciones`: a missing key is the empty string. */
  datatype Condition = Condition(question: string, expected: string)

  /** A classification rule; the code is whatever text the knowledge base holds. */
  datatype Rule = Rule(code: string, condition: Condition, instruction: string, causes: seq<string>)

  /** One entry of the knowledge base; a missing list is the empty list. */
  datatype Protocol = Protocol(
    root: string,
    questions: seq<Question>,
    recommendations: seq<string>,
    rules: seq<Rule>)

  // ---------------------------------------------------------------------
  // Python dicts: association lists in insertion order

  /** A Python dict with string keys, in insertion order. */
  type Dict<V> = seq<(string, V)>

  /** The answers the patient gave, keyed by question id or question text. */
  type Answers = Dict<Value>

  function Keys<V>(d: Dict<V>): (r: seq<string>)
    ensures |r| == |d| && forall i :: 0 <= i < |d| ==> r[i] == d[i].0
    decreases |d|
  {
    if d == [] then [] else [d[0].0] + Keys(d[1..])
  }

  predicate DistinctKeys<V>(d: Dict<V>) {
    forall i, j :: 0 <= i < j < |d| ==> d[i].0 != d[j].0
  }

  /** `d.get(key)`: the value stored under `key`, `None` when absent. */
  function Lookup<V>(d: Dict<V>, key: string): (r: Option<V>)
    ensures r.None? <==> key !in Keys(d)
    ensures r.Some? ==> exists i :: 0 <= i < |d| && d[i] == (key, r.value)
    decreases |d|
  {
    if d == [] then None
    else if d[0].0 == key then Some(d[0].1)
    else
      var r := Lookup(d[1..], key);
      assert Keys(d) == [d[0].0] + Keys(d[1..]);
      r
  }

  /** `d[key] = value`: an existing key keeps its place and takes the new
      value; a new key goes last. */
  function Assign<V>(d: Dict<V>, key: string, value: V): Dict<V>
    decreases |d|
  {
    if d == [] then [(key, value)]
    else if d[0].0 == key then [(key, value)] + d[1..]
    else [d[0]] + Assign(d[1..], key, value)
  }

  /** After assignment the key reads back the new value and every other key reads as before. */
  lemma {:induction false} AssignLookup<V>(d: Dict<V>, key: string, value: V, k: string)
    ensures Lookup(Assign(d, key, value), k) == if k == key then Some(value) else Lookup(d, k)
    decreases |d|
  {
    if d != [] && d[0].0 != key {
      AssignLookup(d[1..], key, value, k);
    }
  }

  /** Assignment never reorders keys: a known key stays put, a new one is appended. */
  lemma {:induction false} AssignKeys<V>(d: Dict<V>, key: string, value: V)
    ensures Keys(Assign(d, key, value)) == if key in Keys(d) then Keys(d) else Keys(d) + [key]
    decreases |d|
  {
    var r := Assign(d, key, value);
    if d == [] {
      assert Keys(r) == [key];
    } else if d[0].0 == key {
      assert key in Keys(d) by { assert Keys(d)[0] == key; }
      assert Keys(r) == Keys(d);
    } else {
      var rest := Assign(d[1..], key, value);
      AssignKeys(d[1..], key, value);
      assert Keys(d) == [d[0].0] + Keys(d[1..]);
      assert Keys(r) == [d[0].0] + Keys(rest);
      assert key in Keys(d) <==> key in Keys(d[1..]);
    }
  }

  /** Assignment keeps the keys of a dict distinct. */
  lemma {:induction false} AssignDistinct<V>(d: Dict<V>, key: string, value: V)
    requires DistinctKeys(d)
    ensures DistinctKeys(Assign(d, key, value))
  {
    AssignKeys(d, key, value);
    var r := Assign(d, key, value);
    forall i, j | 0 <= i < j < |r|
      ensures r[i].0 != r[j].0
    {
      assert Keys(r)[i] == r[i].0 && Keys(r)[j] == r[j].0;
    }
  }

  /** The dict obtained by assigning `values[i]` under `keys[i]` for each i in order. */
  function FromPairs<V>(keys: seq<string>, values: seq<V>): Dict<V>
    requires |keys| == |values|
    decreases |keys|
  {
    if keys == [] then []
    else
      var n := |keys| - 1;
      Assign(FromPairs(keys[..n], values[..n]), keys[n], values[n])
  }

  /** Taking one more pair assigns it on top of the dict built so far. */
  lemma {:induction false} FromPairsPrefix<V>(keys: seq<string>, values: seq<V>, i: nat)
    requires i < |keys| == |values|
    ensures FromPairs(keys[..i + 1], values[..i + 1]) == Assign(FromPairs(keys[..i], values[..i]), keys[i], values[i])
  {
    assert keys[..i + 1][..i] == keys[..i] && values[..i + 1][..i] == values[..i];
  }

  /** A key finds the value assigned to it LAST; a key never assigned finds nothing. */
  lemma {:induction false} FromPairsFindsLast<V>(keys: seq<string>, values: seq<V>, k: string)
    requires |keys| == |values|
    ensures Lookup(FromPairs(keys, values), k).None? <==> k !in keys
    ensures Lookup(FromPairs(keys, values), k).Some? ==>
      exists i :: 0 <= i < |keys| && keys[i] == k && values[i] == Lookup(FromPairs(keys, values), k).value
        && forall j :: i < j < |keys| ==> keys[j] != k
    decreases |keys|
  {
    if keys != [] {
      var n := |keys| - 1;
      FromPairsFindsLast(keys[..n], values[..n], k);
      AssignLookup(FromPairs(keys[..n], values[..n]), keys[n], values[n], k);
      assert keys == keys[..n] + [keys[n]];
      if keys[n] != k {
        var r := Lookup(FromPairs(keys, values), k);
        if r.Some? {
          var i :| 0 <= i < n && keys[..n][i] == k && values[..n][i] == r.value
            && forall j :: i < j < n ==> keys[..n][j] != k;
          assert keys[i] == k && values[i] == r.value;
        }
      }
    }
  }
}
