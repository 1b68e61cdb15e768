/** Merging parameter lists, selecting parameters by location, and picking
    the media entry of a request body. */
module Parameters {
  import opened OpenApi

  /** A parameter list that may be absent, read as a list. */
  function Present(list: Option<seq<Parameter>>): seq<Parameter>
  {
    if list.Some? then list.value else []
  }

  /** The lists that are present, concatenated in the order given. */
  function Joined(lists: seq<Option<seq<Parameter>>>): seq<Parameter>
  {
    if lists == [] then [] else Present(lists[0]) + Joined(lists[1..])
  }

  lemma {:induction false} JoinedAppend(a: seq<Option<seq<Parameter>>>, b: seq<Option<seq<Parameter>>>)
    ensures Joined(a + b) == Joined(a) + Joined(b)
  {
    if a == [] {
      assert a + b == b;
    } else {
      assert (a + b)[1..] == a[1..] + b;
      JoinedAppend(a[1..], b);
    }
  }

  /** Two lists merged: every entry of the first, then every entry of the
      second, absent ones skipped and duplicates kept. */
  lemma {:induction false} JoinedTwo(first: Option<seq<Parameter>>, second: Option<seq<Parameter>>)
    ensures Joined([first, second]) == Present(first) + Present(second)
    ensures |Joined([first, second])| == |Present(first)| + |Present(second)|
  {
    assert [first, second][1..] == [second];
    assert [second][1..] == [];
    assert Joined([second]) == Present(second) + Joined([]);
  }

  /** A parameter is in the merged list exactly when some present list holds it. */
  lemma {:induction false} JoinedMembership(lists: seq<Option<seq<Parameter>>>, p: Parameter)
    ensures p in Joined(lists) <==> exists i :: 0 <= i < |lists| && lists[i].Some? && p in lists[i].value
  {
    if lists != [] {
      JoinedMembership(lists[1..], p);
      if p in Joined(lists[1..]) {
        var i :| 0 <= i < |lists[1..]| && lists[1..][i].Some? && p in lists[1..][i].value;
        assert lists[i + 1] == lists[1..][i];
      }
      if exists i :: 0 <= i < |lists| && lists[i].Some? && p in lists[i].value {
        var i :| 0 <= i < |lists| && lists[i].Some? && p in lists[i].value;
        if i > 0 {
          assert lists[1..][i - 1] == lists[i];
        }
      }
    }
  }

  /** `joinParameters`: walks the lists in order and appends every list
      that is present. */
  method JoinParameters(lists: seq<Option<seq<Parameter>>>) returns (result: seq<Parameter>)
    ensures result == Joined(lists)
  {
    result := [];
    var i := 0;
    while i < |lists|
      invariant 0 <= i <= |lists|
      invariant result == Joined(lists[..i])
    {
      JoinedPrefix(lists, i);
      if lists[i].Some? {
        result := result + lists[i].value;
      }
      i := i + 1;
    }
    assert lists[..i] == lists;
  }

  lemma {:induction false} JoinedPrefix(lists: seq<Option<seq<Parameter>>>, i: nat)
    requires i < |lists|
    ensures Joined(lists[..i + 1]) == Joined(lists[..i]) + Present(lists[i])
  {
    JoinedAppend(lists[..i], [lists[i]]);
    assert lists[..i + 1] == lists[..i] + [lists[i]];
    assert [lists[i]][1..] == [];
    assert Joined([lists[i]]) == Present(lists[i]) + Joined([]);
  }

  /** The parameters whose `in` is `location`, in their order. */
  function AtLocation(ps: seq<Parameter>, location: string): (r: seq<Parameter>)
    ensures |r| <= |ps|
    ensures forall p :: p in r <==> p in ps && p.location == location
  {
    if ps == [] then []
    else (if ps[0].location == location then [ps[0]] else []) + AtLocation(ps[1..], location)
  }

  /** Selecting by location keeps the order of a concatenation. */
  lemma {:induction false} AtLocationAppend(a: seq<Parameter>, b: seq<Parameter>, location: string)
    ensures AtLocation(a + b, location) == AtLocation(a, location) + AtLocation(b, location)
  {
    if a == [] {
      assert a + b == b;
    } else {
      assert (a + b)[1..] == a[1..] + b;
      AtLocationAppend(a[1..], b, location);
    }
  }

  /** Whether the request body has a first media entry, with a value. */
  predicate HasFirstMedia(body: Option<RequestBody>)
  {
    body.Some? && body.value.content.Some? && |body.value.content.value| > 0
    && body.value.content.value[0].1.Some?
  }

  /** `getRequetsBodyContentSchema`: the value of the first media entry,
      or nothing when the body, its content or that value is missing or
      the content has no entries. */
  function RequestBodyMedia(body: Option<RequestBody>): (r: Option<MediaType>)
    ensures r.Some? <==> HasFirstMedia(body)
    ensures r.Some? ==> r.value == body.value.content.value[0].1.value
  {
    if body.None? || body.value.content.None? then None
    else
      var entries := body.value.content.value;
      if |entries| == 0 then None
      else
        var media := entries[0].1;
        if media.Some? then media else None
  }

  /** The schema of the first media entry, read straight off the body. */
  function FirstMediaSchema(body: Option<RequestBody>): Option<Schema>
  {
    if HasFirstMedia(body) then body.value.content.value[0].1.value.schema else None
  }

  /** The media entry the generator picks has a schema exactly when the
      first entry does. */
  lemma {:induction false} MediaSchema(body: Option<RequestBody>)
    ensures var media := RequestBodyMedia(body);
            (media.Some? && media.value.schema.Some?) <==> FirstMediaSchema(body).Some?
    ensures var media := RequestBodyMedia(body);
            media.Some? && media.value.schema.Some? ==> media.value.schema == FirstMediaSchema(body)
  {
  }

  /** Only the first media entry counts: entries after it change nothing. */
  lemma {:induction false} MediaIgnoresLaterEntries(required: bool, entries: seq<(string, Option<MediaType>)>, later: seq<(string, Option<MediaType>)>)
    requires |entries| > 0
    ensures RequestBodyMedia(Some(RequestBody(required, Some(entries + later))))
         == RequestBodyMedia(Some(RequestBody(required, Some(entries))))
  {
    assert (entries + later)[0] == entries[0];
  }
}
