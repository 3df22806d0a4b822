/**
 * Peer metadata as the entity consults it: for a peer entity, one of its
 * services (a role such as `single_logout_service`), a binding and a
 * descriptor type, the ordered list of endpoint locations it advertises.
 * `FirstAdvertised` is the first-match rule `pick_binding` applies to the
 * caller's ordered list of acceptable bindings.
 */
module Metadata {
  import opened Saml

  /** The peer, service and descriptor type a binding is looked up for. */
  datatype Query = Query(entityId: string, service: string, descrType: string)

  datatype EndpointKey = EndpointKey(entityId: string, service: string, binding: Binding, descrType: string)

  /** What the metadata store advertises; a missing key advertises nothing. */
  type Store = map<EndpointKey, seq<Url>>

  /** The locations `destinations(sfunc(entity_id, binding, descr_type))` of one binding. */
  function Lookup(md: Store, q: Query, binding: Binding): seq<Url> {
    var key := EndpointKey(q.entityId, q.service, binding, q.descrType);
    if key in md then md[key] else []
  }

  predicate Advertised(md: Store, q: Query, binding: Binding) {
    Lookup(md, q, binding) != []
  }

  /** Binding `i` is advertised and no binding before it is. */
  predicate IsFirstAdvertised(md: Store, q: Query, bindings: seq<Binding>, i: int) {
    && 0 <= i < |bindings|
    && Advertised(md, q, bindings[i])
    && forall j :: 0 <= j < i ==> !Advertised(md, q, bindings[j])
  }

  /**
   * The first binding, in the caller's order, whose lookup is non-empty,
   * paired with the first location advertised for it.
   */
  function FirstAdvertised(md: Store, q: Query, bindings: seq<Binding>): (r: Option<(Binding, Url)>)
    ensures r.Some? ==> r.value.0 in bindings && Advertised(md, q, r.value.0)
    ensures r.Some? ==> r.value.1 == Lookup(md, q, r.value.0)[0]
    decreases |bindings|
  {
    if bindings == [] then None
    else
      var urls := Lookup(md, q, bindings[0]);
      if urls != [] then Some((bindings[0], urls[0]))
      else FirstAdvertised(md, q, bindings[1..])
  }

  /** Nothing is selected exactly when no binding in the list is advertised. */
  lemma {:induction false} FirstAdvertisedNone(md: Store, q: Query, bindings: seq<Binding>)
    ensures FirstAdvertised(md, q, bindings).None? <==>
            forall i :: 0 <= i < |bindings| ==> !Advertised(md, q, bindings[i])
    decreases |bindings|
  {
    if bindings != [] {
      FirstAdvertisedNone(md, q, bindings[1..]);
      assert forall i :: 1 <= i < |bindings| ==> bindings[i] == bindings[1..][i - 1];
    }
  }

  /** The first advertised binding in the list is the one selected, with its first location. */
  lemma {:induction false} FirstAdvertisedPicksFirst(md: Store, q: Query, bindings: seq<Binding>, i: int)
    requires IsFirstAdvertised(md, q, bindings, i)
    ensures FirstAdvertised(md, q, bindings) == Some((bindings[i], Lookup(md, q, bindings[i])[0]))
    decreases i
  {
    if i > 0 {
      assert !Advertised(md, q, bindings[0]);
      var rest := bindings[1..];
      forall j | 0 <= j < i - 1 ensures !Advertised(md, q, rest[j]) {
        assert rest[j] == bindings[j + 1];
      }
      FirstAdvertisedPicksFirst(md, q, rest, i - 1);
    }
  }

  /** Whatever is selected comes from the first advertised binding: earlier ones were skipped. */
  lemma {:induction false} FirstAdvertisedSkipsEarlier(md: Store, q: Query, bindings: seq<Binding>)
    requires FirstAdvertised(md, q, bindings).Some?
    ensures exists i :: IsFirstAdvertised(md, q, bindings, i) &&
                        FirstAdvertised(md, q, bindings).value.0 == bindings[i]
    decreases |bindings|
  {
    if !Advertised(md, q, bindings[0]) {
      var rest := bindings[1..];
      FirstAdvertisedSkipsEarlier(md, q, rest);
      var i :| IsFirstAdvertised(md, q, rest, i) && FirstAdvertised(md, q, rest).value.0 == rest[i];
      assert IsFirstAdvertised(md, q, bindings, i + 1) by {
        forall j | 0 <= j < i + 1 ensures !Advertised(md, q, bindings[j]) {
          if j > 0 { assert bindings[j] == rest[j - 1]; }
        }
      }
    } else {
      assert IsFirstAdvertised(md, q, bindings, 0);
    }
  }

  /**
   * Adding bindings at the end of the list never changes a selection already
   * made, and when nothing was selected the added bindings decide.
   */
  lemma {:induction false} FirstAdvertisedAppend(md: Store, q: Query, bindings: seq<Binding>, more: seq<Binding>)
    ensures FirstAdvertised(md, q, bindings).Some? ==>
            FirstAdvertised(md, q, bindings + more) == FirstAdvertised(md, q, bindings)
    ensures FirstAdvertised(md, q, bindings).None? ==>
            FirstAdvertised(md, q, bindings + more) == FirstAdvertised(md, q, more)
    decreases |bindings|
  {
    if bindings == [] {
      assert bindings + more == more;
    } else {
      assert (bindings + more)[0] == bindings[0];
      assert (bindings + more)[1..] == bindings[1..] + more;
      FirstAdvertisedAppend(md, q, bindings[1..], more);
    }
  }

  /**
   * The order of the list is a preference, not a requirement: with two
   * bindings the one listed first wins when both are advertised, and the
   * other one is chosen when only it is advertised.
   */
  lemma PreferenceOrder(md: Store, q: Query, preferred: Binding, fallback: Binding)
    requires Advertised(md, q, fallback)
    ensures Advertised(md, q, preferred) ==>
            FirstAdvertised(md, q, [preferred, fallback]).value.0 == preferred
    ensures !Advertised(md, q, preferred) ==>
            FirstAdvertised(md, q, [preferred, fallback]) == Some((fallback, Lookup(md, q, fallback)[0]))
  {
  }
}
