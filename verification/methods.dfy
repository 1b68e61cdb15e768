/** Which operations of a path item the generator visits, and in what order. */
module Methods {
  import opened OpenApi

  /** Strictly increasing in the fixed operation order, hence without duplicates. */
  predicate InOperationOrder(ms: seq<HttpMethod>)
  {
    forall i, j :: 0 <= i < j < |ms| ==> ms[i].Rank() < ms[j].Rank()
  }

  /** A method's rank is its position in the fixed order. */
  lemma {:induction false} RankPosition(m: HttpMethod)
    ensures m.Rank() < |HttpOperations| && HttpOperations[m.Rank()] == m
  {
  }

  lemma {:induction false} HttpOperationsInOrder()
    ensures InOperationOrder(HttpOperations)
    ensures forall m: HttpMethod :: m in HttpOperations
  {
    forall i | 0 <= i < |HttpOperations|
      ensures HttpOperations[i].Rank() == i
    {
    }
    forall m: HttpMethod
      ensures m in HttpOperations
    {
      RankPosition(m);
    }
  }

  /** The methods of `ms` that the path item holds, in the order of `ms`. */
  function MethodsIn(ms: seq<HttpMethod>, item: PathItem): (r: seq<HttpMethod>)
    ensures |r| <= |ms|
    ensures forall m :: m in r <==> m in ms && item.OperationFor(m).Some?
  {
    if ms == [] then []
    else (if item.OperationFor(ms[0]).Some? then [ms[0]] else []) + MethodsIn(ms[1..], item)
  }

  lemma {:induction false} MethodsInAppend(a: seq<HttpMethod>, b: seq<HttpMethod>, item: PathItem)
    ensures MethodsIn(a + b, item) == MethodsIn(a, item) + MethodsIn(b, item)
  {
    if a == [] {
      assert a + b == b;
    } else {
      var head := if item.OperationFor(a[0]).Some? then [a[0]] else [];
      assert (a + b)[0] == a[0] && (a + b)[1..] == a[1..] + b;
      MethodsInAppend(a[1..], b, item);
      assert head + (MethodsIn(a[1..], item) + MethodsIn(b, item))
          == (head + MethodsIn(a[1..], item)) + MethodsIn(b, item);
    }
  }

  lemma {:induction false} MethodsInPrefix(ms: seq<HttpMethod>, i: nat, item: PathItem)
    requires i < |ms|
    ensures MethodsIn(ms[..i + 1], item)
         == MethodsIn(ms[..i], item) + (if item.OperationFor(ms[i]).Some? then [ms[i]] else [])
  {
    var last := if item.OperationFor(ms[i]).Some? then [ms[i]] else [];
    assert ms[..i + 1] == ms[..i] + [ms[i]];
    MethodsInAppend(ms[..i], [ms[i]], item);
    assert [ms[i]][1..] == [];
    assert MethodsIn([ms[i]], item) == last + [];
    assert last + [] == last;
  }

  /** Filtering keeps the order. */
  lemma {:induction false} MethodsInOrdered(ms: seq<HttpMethod>, item: PathItem)
    requires InOperationOrder(ms)
    ensures InOperationOrder(MethodsIn(ms, item))
  {
    if ms != [] {
      var rest := MethodsIn(ms[1..], item);
      MethodsInOrdered(ms[1..], item);
      if item.OperationFor(ms[0]).Some? {
        var r := [ms[0]] + rest;
        forall i, j | 0 <= i < j < |r|
          ensures r[i].Rank() < r[j].Rank()
        {
          if i == 0 {
            assert r[j] in ms[1..];
            var k :| 0 <= k < |ms[1..]| && ms[1..][k] == r[j];
            assert ms[k + 1] == r[j];
          } else {
            assert r[i] == rest[i - 1] && r[j] == rest[j - 1];
          }
        }
      }
    }
  }

  /** `availableMethods`: exactly the methods the path item holds, in the
      order get, put, post, delete, options, head, patch, trace, each once. */
  function AvailableMethods(item: PathItem): (r: seq<HttpMethod>)
    ensures forall m :: m in r <==> item.OperationFor(m).Some?
    ensures InOperationOrder(r)
  {
    HttpOperationsInOrder();
    MethodsInOrdered(HttpOperations, item);
    MethodsIn(HttpOperations, item)
  }
}
