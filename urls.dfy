/**
 * The URL list handed to the extraction service: the set of the truthy `url`
 * values of the events, turned into a list and cut to its first ten entries.
 * The set's iteration order is unspecified, so the conversion to a list is
 * modelled as a loop that takes the elements out of the set in an arbitrary
 * order.
 */
module Urls {
  import opened Common
  import opened JsonValue

  const MaxUrls := 10

  /**
   * What one element contributes: its truthy `url`, nothing when the value is
   * missing or falsy, and 500 when the element is not an object (`.get` raises
   * AttributeError) or the value is a non-empty list or object (unhashable).
   */
  function UrlOf(event: Json): (r: Outcome<Option<Json>>)
    ensures r.Err? ==> r.status == InternalError
    // only a non-object, or a non-empty list or object under `url`, raises
    ensures r.Err? <==>
      || !event.JObj?
      || (Get(event.fields, "url").JArr? && Get(event.fields, "url").items != [])
      || (Get(event.fields, "url").JObj? && Get(event.fields, "url").fields != map[])
    // a contributed value is the element's own `url`, and a usable one
    ensures r.Ok? && r.value.Some? ==>
      event.JObj? && r.value.value == Get(event.fields, "url") && Truthy(r.value.value) && Hashable(r.value.value)
    // a missing, null, false, zero or empty `url` contributes nothing
    ensures event.JObj? && !Truthy(Get(event.fields, "url")) ==> r == Ok(None)
  {
    match event
    case JObj(m) =>
      var u := Get(m, "url");
      if !Truthy(u) then Ok(None)
      else if Hashable(u) then Ok(Some(u))
      else Err(InternalError)
    case _ => Err(InternalError)
  }

  /** The set comprehension, element by element in list order. */
  function UrlSet(events: seq<Json>): (r: Outcome<set<Json>>)
    ensures r.Err? ==> r.status == InternalError
    ensures r.Ok? ==> |r.value| <= |events|
  {
    if |events| == 0 then Ok({})
    else
      var n := |events| - 1;
      var prev := UrlSet(events[..n]);
      if prev.Err? then prev
      else
        var last := UrlOf(events[n]);
        if last.Err? then Err(InternalError)
        else if last.value.None? then Ok(prev.value)
        else
          var grown := prev.value + {last.value.value};
          assert |grown| <= |prev.value| + 1;
          Ok(grown)
  }

  /** The comprehension succeeds exactly when no element raises. */
  lemma {:induction false} UrlSetOkIff(events: seq<Json>)
    ensures UrlSet(events).Ok? <==> forall i :: 0 <= i < |events| ==> UrlOf(events[i]).Ok?
  {
    if |events| > 0 {
      var n := |events| - 1;
      var init := events[..n];
      UrlSetOkIff(init);
      assert forall i :: 0 <= i < n ==> init[i] == events[i];
    }
  }

  /** A successful comprehension holds exactly the URLs the elements contribute. */
  lemma {:induction false} UrlSetCollects(events: seq<Json>)
    requires UrlSet(events).Ok?
    ensures forall u :: u in UrlSet(events).value <==>
      exists i :: 0 <= i < |events| && UrlOf(events[i]) == Ok(Some(u))
  {
    if |events| > 0 {
      var n := |events| - 1;
      var init := events[..n];
      UrlSetCollects(init);
      CollectStep(events, init, UrlSet(init).value, UrlSet(events).value);
    }
  }

  /** Adding the last element's URL to the URLs of the others gives the URLs of all of them. */
  lemma CollectStep(events: seq<Json>, init: seq<Json>, prev: set<Json>, grown: set<Json>)
    requires |events| > 0 && init == events[..|events| - 1] && UrlOf(events[|events| - 1]).Ok?
    requires forall u :: u in prev <==> exists i :: 0 <= i < |init| && UrlOf(init[i]) == Ok(Some(u))
    requires UrlOf(events[|events| - 1]) == Ok(None) ==> grown == prev
    requires UrlOf(events[|events| - 1]).Ok? && UrlOf(events[|events| - 1]).value.Some?
             ==> grown == prev + {UrlOf(events[|events| - 1]).value.value}
    ensures forall u :: u in grown <==> exists i :: 0 <= i < |events| && UrlOf(events[i]) == Ok(Some(u))
  {
    var n := |events| - 1;
    forall u
      ensures u in grown <==> exists i :: 0 <= i < |events| && UrlOf(events[i]) == Ok(Some(u))
    {
      if u in prev {
        var i :| 0 <= i < n && UrlOf(init[i]) == Ok(Some(u));
        assert init[i] == events[i];
      }
      if exists i :: 0 <= i < |events| && UrlOf(events[i]) == Ok(Some(u)) {
        var i :| 0 <= i < |events| && UrlOf(events[i]) == Ok(Some(u));
        if i < n {
          assert init[i] == events[i];
        }
      }
    }
  }

  /** Every URL in the set is a truthy, hashable value. */
  lemma UrlSetMembersTruthy(events: seq<Json>, u: Json)
    requires UrlSet(events).Ok? && u in UrlSet(events).value
    ensures Truthy(u) && Hashable(u)
  {
    UrlSetCollects(events);
  }

  /** No element occurs twice. */
  predicate NoDup(xs: seq<Json>) {
    forall i, j :: 0 <= i < j < |xs| ==> xs[i] != xs[j]
  }

  /** `xs` lists the elements of `s`, each once. */
  predicate Enumerates(xs: seq<Json>, s: set<Json>) {
    NoDup(xs) && (forall x :: x in xs ==> x in s) && (forall x :: x in s ==> x in xs)
  }

  /** `list(s)`: the set's elements in an order the model leaves open. */
  method ListOfSet(s: set<Json>) returns (xs: seq<Json>)
    ensures Enumerates(xs, s)
  {
    xs := [];
    var rest := s;
    while rest != {}
      invariant rest <= s
      invariant forall x :: x in xs <==> x in s && x !in rest
      invariant NoDup(xs)
      decreases rest
    {
      var x :| x in rest;
      xs := xs + [x];
      rest := rest - {x};
    }
  }

  /** A list without duplicates is as long as the set of its elements. */
  lemma {:induction false} NoDupLength(xs: seq<Json>)
    requires NoDup(xs)
    ensures |set x | x in xs| == |xs|
  {
    if xs != [] {
      var tail := xs[1..];
      NoDupLength(tail);
      assert (set x | x in xs) == {xs[0]} + (set x | x in tail);
      assert xs[0] !in (set x | x in tail);
    }
  }

  lemma EnumerationLength(xs: seq<Json>, s: set<Json>)
    requires Enumerates(xs, s)
    ensures |xs| == |s|
  {
    NoDupLength(xs);
    assert (set x | x in xs) == s;
  }

  /** `urls[:10]` when there are more than ten: the first ten, or all of them. */
  function CapUrls(xs: seq<Json>): (capped: seq<Json>)
    ensures |capped| == if |xs| <= MaxUrls then |xs| else MaxUrls
    ensures capped == xs[..|capped|]
  {
    if |xs| > MaxUrls then xs[..MaxUrls] else xs
  }

  /**
   * The list sent for extraction has no duplicates, holds only URLs of the
   * set, at most ten of them, and is exactly the set when it has ten or fewer.
   */
  lemma CappedUrls(xs: seq<Json>, s: set<Json>)
    requires Enumerates(xs, s)
    ensures NoDup(CapUrls(xs))
    ensures |CapUrls(xs)| == if |s| <= MaxUrls then |s| else MaxUrls
    ensures forall u :: u in CapUrls(xs) ==> u in s
    ensures |s| <= MaxUrls ==> forall u :: u in CapUrls(xs) <==> u in s
  {
    EnumerationLength(xs, s);
    var urls := CapUrls(xs);
    assert forall u :: u in urls ==> u in xs;
  }
}
