/** What the listing queries of the store answer: which of the current records, and that each is listed once. */
module EventQueries {
  import opened Options
  import opened EventFold
  import opened EventPlane
  import opened EventRefinement
  import EventStore

  /** No two of the records have the same id. */
  ghost predicate OnceEach<T(!new)>(listed: seq<T>, key: T -> string) {
    forall i, j :: 0 <= i < j < |listed| ==> key(listed[i]) != key(listed[j])
  }

  /** The ids are distinct, and each names its own record. */
  ghost predicate Indexed<T>(order: seq<string>, m: map<string, T>, key: T -> string) {
    && (forall id :: id in order ==> id in m && key(m[id]) == id)
    && (forall i, j :: 0 <= i < j < |order| ==> order[i] != order[j])
  }

  lemma {:induction false} SelectedIff<T(!new)>(order: seq<string>, m: map<string, T>, key: T -> string,
                                                want: T -> bool)
    requires Indexed(order, m, key)
    ensures var listed := EventStore.Select(order, m, want);
            && (forall r :: r in listed <==> key(r) in order && m[key(r)] == r && want(r))
            && OnceEach(listed, key)
  {
    if order != [] {
      var front, id := order[..|order| - 1], order[|order| - 1];
      assert order == front + [id];
      SelectedIff(front, m, key, want);
      var before := EventStore.Select(front, m, want);
      assert forall k :: 0 <= k < |before| ==> before[k] in before;
    }
  }

  /** A listing has exactly the current records that are wanted, once each. */
  lemma ListedIff<T(!new)>(log: seq<T>, key: T -> string, at: T -> Stamp, want: T -> bool)
    ensures var listed, m := EventStore.ListOf(log, key, at, want), ById(log, key, at);
            && (forall r :: r in listed <==> key(r) in m && m[key(r)] == r && want(r))
            && OnceEach(listed, key)
  {
    ByIdKeys(log, key, at);
    ByIdMembers(log, key, at);
    SelectedIff(IdOrder(log, key), ById(log, key, at), key, want);
  }

  /** The waits listed are exactly the current ones that are open; with a cutoff, those of them whose deadline
      is set and has passed. */
  lemma WaitsAreListed(p: Plane, now: Stamp)
    ensures var waits, open := Abstract(p).waits, EventStore.OpenWaits(p);
            && (forall w :: w in open <==> w.id in waits && waits[w.id] == w && w.status == Waiting)
            && OnceEach(open, WaitKey)
    ensures var waits, late := Abstract(p).waits,
                               EventStore.ListOf(p.waits, WaitKey, WaitAt, EventStore.PastDeadline(now));
            && (forall w :: w in late <==>
                  w.id in waits && waits[w.id] == w && w.status == Waiting && 0 < w.deadlineAt < now)
            && OnceEach(late, WaitKey)
  {
    ListedIff(p.waits, WaitKey, WaitAt, EventStore.IsOpen);
    ListedIff(p.waits, WaitKey, WaitAt, EventStore.PastDeadline(now));
  }

  /** The items listed are exactly the current ones of the session, with the status if one is asked for. */
  lemma ItemsAreListed(p: Plane, session: string, status: Option<DeliveryStatus>)
    ensures var items, listed := Abstract(p).items, EventStore.Items(p, session, status);
            && (forall i :: i in listed <==>
                  i.id in items && items[i.id] == i && i.session == session && status in {None, Some(i.delivery)})
            && OnceEach(listed, ItemKey)
  {
    ListedIff(p.mailbox, ItemKey, ItemAt, EventStore.InSession(session, status));
  }

  /** The requests listed are exactly the current ones of the session, as long as no request changes its
      session, which no sequence of calls makes it do. */
  lemma RequestsAreListed(p: Plane, session: string)
    requires Tidy(p)
    ensures var requests, listed := Abstract(p).requests, EventStore.SessionRequests(p, session);
            && (forall r :: r in listed <==> r.id in requests && requests[r.id] == r && r.session == session)
            && OnceEach(listed, RequestKey)
  {
    var mine := EventStore.Mine(Requests(p.tasks), EventStore.OwnRequest(session));
    ListedIff(mine, RequestKey, RequestAt, EventStore.Any);
    EventStore.FilterThenFold(Requests(p.tasks), session);
  }
}
