/** What the hub sends over a websocket, and what a client that merges the messages by key shows. */
module Messages {
  import opened Options

  datatype Kind = FlowKind | ApplicationKind | RolloutKind | WorkflowKind

  // A broadcast kind, or the pods of one application in one namespace.
  datatype Topic = All(kind: Kind) | PodsOf(namespace: string, app: string)

  // One resource inside a list message; `deleted` is the watcher-event-type annotation.
  datatype Item = Item(key: string, body: string, deleted: bool)

  datatype Event = Event(topic: Topic, item: Item)

  datatype Message =
    | Resources(topic: Topic, items: seq<Item>)  // a list of resources
    | WebError(reason: string)                   // the error arm of the hub
    | Direct(payload: string)                    // log batches and errors sent by request goroutines

  type Store = map<string, string>

  function At(store: Store, key: string): Option<string> {
    if key in store then Some(store[key]) else None
  }

  /** What a client that held `o` for `key` holds after merging `items` in order. */
  function Settle(o: Option<string>, items: seq<Item>, key: string): Option<string> {
    if items == [] then o
    else
      var last := items[|items| - 1];
      if last.key == key then if last.deleted then None else Some(last.body)
      else Settle(o, items[..|items| - 1], key)
  }

  predicate Touches(items: seq<Item>, key: string) {
    exists i :: 0 <= i < |items| && items[i].key == key
  }

  lemma {:induction false} SettleConcat(o: Option<string>, xs: seq<Item>, ys: seq<Item>, key: string)
    ensures Settle(o, xs + ys, key) == Settle(Settle(o, xs, key), ys, key)
    decreases |ys|
  {
    if ys == [] {
      assert xs + ys == xs;
    } else {
      var front := ys[..|ys| - 1];
      assert (xs + ys)[..|xs + ys| - 1] == xs + front;
      SettleConcat(o, xs, front, key);
    }
  }

  // A list that mentions a key decides it; a list that does not leaves it alone.
  lemma {:induction false} SettleTouched(o: Option<string>, p: Option<string>, items: seq<Item>, key: string)
    ensures Touches(items, key) ==> Settle(o, items, key) == Settle(p, items, key)
    ensures !Touches(items, key) ==> Settle(o, items, key) == o
    decreases |items|
  {
    if items != [] {
      var front := items[..|items| - 1];
      SettleTouched(o, p, front, key);
      assert items == front + [items[|items| - 1]];
      assert Touches(items, key) ==> Touches(front, key) || items[|items| - 1].key == key;
      assert Touches(front, key) ==> Touches(items, key) by {
        if Touches(front, key) {
          var i :| 0 <= i < |front| && front[i].key == key;
          assert items[i].key == key;
        }
      }
      if items[|items| - 1].key == key {
        assert Touches(items, key);
      }
    }
  }

  /** The items about `topic` in a sequence of messages, in the order handed over. */
  function ItemsOf(messages: seq<Message>, topic: Topic): seq<Item> {
    if messages == [] then []
    else
      var last := messages[|messages| - 1];
      ItemsOf(messages[..|messages| - 1], topic)
      + if last.Resources? && last.topic == topic then last.items else []
  }

  /** The items about `topic` in a queue of events, oldest first. */
  function ItemsFor(events: seq<Event>, topic: Topic): seq<Item> {
    if events == [] then []
    else (if events[0].topic == topic then [events[0].item] else []) + ItemsFor(events[1..], topic)
  }

  lemma ItemsOfAppend(messages: seq<Message>, m: Message, topic: Topic)
    ensures ItemsOf(messages + [m], topic)
         == ItemsOf(messages, topic) + if m.Resources? && m.topic == topic then m.items else []
  {
    assert (messages + [m])[..|messages + [m]| - 1] == messages;
  }

  lemma {:induction false} ItemsForAppend(events: seq<Event>, e: Event, topic: Topic)
    ensures ItemsFor(events + [e], topic)
         == ItemsFor(events, topic) + if e.topic == topic then [e.item] else []
  {
    if events == [] {
      assert events + [e] == [e];
      assert [e][1..] == [];
      assert ItemsFor([e], topic) == (if e.topic == topic then [e.item] else []) + ItemsFor([], topic);
    } else {
      assert (events + [e])[1..] == events[1..] + [e];
      ItemsForAppend(events[1..], e, topic);
    }
  }

  /** A List answer: any list that a merging client shows as exactly the store. */
  ghost predicate IsListing(items: seq<Item>, store: Store) {
    forall key :: Settle(None, items, key) == At(store, key)
  }

  lemma {:induction false} ListingExists(store: Store) returns (items: seq<Item>)
    ensures IsListing(items, store)
    decreases |store|
  {
    if store == map[] {
      items := [];
    } else {
      var k :| k in store;
      var rest := store - {k};
      assert rest.Keys == store.Keys - {k};
      assert |rest.Keys| == |store.Keys| - 1;
      items := ListingExists(rest);
      var item := Item(k, store[k], false);
      items := items + [item];
      forall key ensures Settle(None, items, key) == At(store, key) {
        assert items[..|items| - 1] + [item] == items;
        assert Settle(None, items[..|items| - 1], key) == At(rest, key);
      }
    }
  }
}
