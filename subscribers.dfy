/** Subscriber resolution (`getSubscribers`): the tokens of the users who follow a marathon. */
module Subscribers {
  import opened Wrappers
  import opened Js

  /** A document of the `users` collection; only these two fields are read. */
  datatype UserDoc = UserDoc(token: Value, marathons: Value)

  /** The `users` collection as one query of a run sees it: its documents in the order the
      store returns them, or a query that fails. */
  datatype UserStore = Reachable(users: seq<UserDoc>) | Unreachable

  /** The message of the error rethrown when the query fails. */
  const RetrievalError: string := "Failed to retrieve subscribers"

  /** Firestore's `array-contains` filter: the field is an array holding the id. */
  predicate ArrayContains(field: Value, id: string)
  {
    field.Array? && Str(id) in field.items
  }

  /** A user whose token the resolver returns for marathon `id`. */
  predicate Qualifies(u: UserDoc, id: string)
  {
    ArrayContains(u.marathons, id) && Truthy(u.token)
  }

  /** The matching users' tokens, `filter(Boolean)` applied, in store order. */
  function SubscriberTokens(users: seq<UserDoc>, id: string): (tokens: seq<Value>)
    ensures |tokens| <= |users|
    ensures forall k :: 0 <= k < |tokens| ==> Truthy(tokens[k])
  {
    if |users| == 0 then []
    else
      var rest := SubscriberTokens(users[..|users| - 1], id);
      var u := users[|users| - 1];
      if ArrayContains(u.marathons, id) && Truthy(u.token) then rest + [u.token] else rest
  }

  /** The resolver: the tokens, or the wrapped error when the query throws. */
  function GetSubscribers(store: UserStore, id: string): (r: Result<seq<Value>>)
    ensures r.Err? <==> store.Unreachable?
    ensures r.Err? ==> r.message == RetrievalError
    ensures r.Ok? ==> forall k :: 0 <= k < |r.value| ==> Truthy(r.value[k])
  {
    match store
    case Unreachable => Err(RetrievalError)
    case Reachable(users) => Ok(SubscriberTokens(users, id))
  }

  /** The positions of the qualifying users, in increasing order. */
  function QualifyingIndices(users: seq<UserDoc>, id: string): (idx: seq<int>)
    ensures forall k :: 0 <= k < |idx| ==> 0 <= idx[k] < |users|
  {
    if |users| == 0 then []
    else
      var rest := QualifyingIndices(users[..|users| - 1], id);
      if Qualifies(users[|users| - 1], id) then rest + [|users| - 1] else rest
  }

  /** The resolver returns exactly the tokens of the qualifying users, each once, in store
      order: token `k` is that of the `k`-th qualifying user, and a user qualifies exactly
      when its position is listed. */
  lemma {:induction false} SubscriberTokensExact(users: seq<UserDoc>, id: string)
    ensures var idx := QualifyingIndices(users, id); var tokens := SubscriberTokens(users, id);
      && |idx| == |tokens|
      && (forall k, l :: 0 <= k < l < |idx| ==> idx[k] < idx[l])
      && (forall k :: 0 <= k < |idx| ==> tokens[k] == users[idx[k]].token)
      && (forall j :: 0 <= j < |users| ==> (Qualifies(users[j], id) <==> j in idx))
  {
    if |users| > 0 {
      var init := users[..|users| - 1];
      SubscriberTokensExact(init, id);
      assert forall j :: 0 <= j < |init| ==> init[j] == users[j];
    }
  }

  /** Soundness and completeness by value: a value is returned exactly when some user who
      follows the marathon holds it as a truthy token. */
  lemma SubscriberTokensMembership(users: seq<UserDoc>, id: string, t: Value)
    ensures t in SubscriberTokens(users, id) <==>
      exists j :: 0 <= j < |users| && Qualifies(users[j], id) && users[j].token == t
  {
    SubscriberTokensExact(users, id);
  }
}
