/**
 * Chart records: a category `name` plus the remaining properties of a
 * JavaScript object, in `Object.keys` order.
 */
module Records {
  import opened Wrappers

  /** The JSON value kinds a record property can hold; only `Number` is plottable. */
  datatype Value = Number(n: int) | Text(s: string) | Boolean(b: bool) | Null

  /** Property lists of an object: no key occurs twice. */
  predicate DistinctKeys(fields: seq<(string, Value)>) {
    forall i, j :: 0 <= i < j < |fields| ==> fields[i].0 != fields[j].0
  }

  type Fields = fields: seq<(string, Value)> | DistinctKeys(fields) witness []

  datatype Record = Record(name: string, fields: Fields)

  /** `record[key]`: the property's value, or None for `undefined`. */
  function Get(fields: seq<(string, Value)>, key: string): (r: Option<Value>)
    ensures r.None? <==> forall i :: 0 <= i < |fields| ==> fields[i].0 != key
    ensures r.Some? ==> exists i :: 0 <= i < |fields| && fields[i] == (key, r.value)
  {
    if |fields| == 0 then None
    else if fields[0].0 == key then Some(fields[0].1)
    else Get(fields[1..], key)
  }

  /** `typeof record[key] === 'number'`, with the number. */
  function NumberAt(r: Record, key: string): Option<int> {
    match Get(r.fields, key)
    case Some(Number(n)) => Some(n)
    case _ => None
  }

  /** The keys of a property list, in order. */
  function Keys(fields: seq<(string, Value)>): (ks: seq<string>)
    ensures |ks| == |fields|
    ensures forall i :: 0 <= i < |fields| ==> ks[i] == fields[i].0
  {
    if |fields| == 0 then [] else [fields[0].0] + Keys(fields[1..])
  }

  /** The keys other than `name` whose values are numbers, in key order. */
  function NumericFields(fields: seq<(string, Value)>): seq<string> {
    if |fields| == 0 then []
    else if fields[0].0 != "name" && fields[0].1.Number? then [fields[0].0] + NumericFields(fields[1..])
    else NumericFields(fields[1..])
  }

  /**
   * The plottable fields of a record: `Object.keys(r).filter(key => key !==
   * 'name' && typeof r[key] === 'number')`.
   */
  function NumericKeys(r: Record): seq<string> {
    NumericFields(r.fields)
  }

  /** `a` is `b` with some elements left out, the rest in the same order. */
  predicate IsSubsequence<T(==)>(a: seq<T>, b: seq<T>)
    decreases |b|
  {
    |a| == 0 || (|b| > 0 && (if a[0] == b[0] then IsSubsequence(a[1..], b[1..]) else IsSubsequence(a, b[1..])))
  }

  lemma {:induction false} NumericFieldsSpec(fields: seq<(string, Value)>)
    requires DistinctKeys(fields)
    ensures forall k :: k in NumericFields(fields) <==> k != "name" && (exists v :: (k, Number(v)) in fields)
    ensures IsSubsequence(NumericFields(fields), Keys(fields))
    ensures forall i, j :: 0 <= i < j < |NumericFields(fields)| ==> NumericFields(fields)[i] != NumericFields(fields)[j]
  {
    if |fields| > 0 {
      NumericFieldsSpec(fields[1..]);
      var rest := NumericFields(fields[1..]);
      assert Keys(fields) == [fields[0].0] + Keys(fields[1..]);
      assert forall k :: k in rest ==> k != fields[0].0 by {
        forall k | k in rest ensures k != fields[0].0 {
          var v :| (k, Number(v)) in fields[1..];
          var i :| 0 <= i < |fields[1..]| && fields[1..][i] == (k, Number(v));
          assert fields[i + 1].0 == k;
        }
      }
      forall k ensures k in NumericFields(fields) <==> k != "name" && (exists v :: (k, Number(v)) in fields) {
        if k != "name" && (exists v :: (k, Number(v)) in fields) {
          var v :| (k, Number(v)) in fields;
          if k != fields[0].0 {
            assert (k, Number(v)) in fields[1..];
          }
        }
        if k in NumericFields(fields) && k !in rest {
          assert fields[0] == (k, Number(fields[0].1.n));
        }
      }
      if fields[0].0 != "name" && fields[0].1.Number? {
        assert NumericFields(fields) == [fields[0].0] + rest;
        assert NumericFields(fields)[1..] == rest;
        forall i, j | 0 <= i < j < |NumericFields(fields)|
          ensures NumericFields(fields)[i] != NumericFields(fields)[j]
        {
          assert NumericFields(fields)[j] == rest[j - 1] && rest[j - 1] in rest;
          if i > 0 { assert NumericFields(fields)[i] == rest[i - 1]; }
        }
      } else {
        SubsequenceSkip(rest, fields[0].0, Keys(fields[1..]));
      }
    }
  }

  /** Dropping an element from the front of the larger sequence keeps the relation. */
  lemma {:induction false} SubsequenceSkip<T>(a: seq<T>, x: T, b: seq<T>)
    requires IsSubsequence(a, b)
    ensures IsSubsequence(a, [x] + b)
    decreases |b|, 1
  {
    if |a| > 0 && a[0] == x {
      assert ([x] + b)[1..] == b;
      SubsequenceTail(a, b);
    } else {
      assert ([x] + b)[1..] == b;
    }
  }

  /** A sub-sequence's tail is a sub-sequence too. */
  lemma {:induction false} SubsequenceTail<T>(a: seq<T>, b: seq<T>)
    requires |a| > 0 && IsSubsequence(a, b)
    ensures IsSubsequence(a[1..], b)
    decreases |b|, 0
  {
    if a[0] == b[0] {
      if |a| > 1 {
        SubsequenceSkip(a[1..], b[0], b[1..]);
        assert [b[0]] + b[1..] == b;
      }
    } else {
      SubsequenceTail(a, b[1..]);
      SubsequenceSkip(a[1..], b[0], b[1..]);
      assert [b[0]] + b[1..] == b;
    }
  }
}
