/** The handlers of the hub loop as the imperative code they are, each proved to be its step of `HubModel`. */
module FlowWatchers {
  import opened Options
  import opened Messages
  import opened HubModel

  function Answer(a: Option<Message>): Message { if a.Some? then a.value else WebError("List") }

  function Answers(answers: seq<Option<Message>>): seq<Message> {
    seq(|answers|, i requires 0 <= i < |answers| => Answer(answers[i]))
  }

  lemma EmptyTopicDoesNotMatter<C>(h: Hub<C>, c: C, topic: Topic, pods: Message)
    requires topic !in h.subs
    ensures Subscribe(h.(subs := h.subs[topic := {}]), c, topic, pods) == Subscribe(h, c, topic, pods)
  {
    assert h.subs[topic := {}][topic := {c}] == h.subs[topic := {c}];
  }

  class WebConn {
    var live: bool               // ctx.Err() == nil
    var open: bool               // writeChan not closed
    var handed: seq<Message>     // what the writer received
    const isAuxWs: bool

    constructor (isAuxWs: bool)
      ensures live && open && handed == [] && this.isAuxWs == isAuxWs
    {
      this.isAuxWs := isAuxWs;
      live, open, handed := true, true, [];
    }
  }

  class FlowWatcher {
    var conns: set<WebConn>
    var connSubscriptions: map<Topic, set<WebConn>>
    ghost var known: set<WebConn>    // every connection ever registered

    ghost predicate Valid()
      reads this, known
    {
      && conns <= known
      && (forall t <- connSubscriptions :: connSubscriptions[t] <= known)
      && (forall c <- known :: (c.live <==> c in conns) && (c.open <==> c in conns))
    }

    ghost function View(): Hub<WebConn>
      reads this, known
    {
      Hub(conns,
          (set c | c in known && c.isAuxWs),
          (set c | c in known && !c.live),
          connSubscriptions,
          map c | c in known :: c.handed)
    }

    constructor ()
      ensures Valid() && View() == Empty()
    {
      conns, connSubscriptions, known := {}, map[], {};
    }

    method SendConn(conn: WebConn, message: Message)
      modifies conn`handed
      ensures conn.handed == if conn.live then old(conn.handed) + [message] else old(conn.handed)
    {
      if !conn.live {
        return;
      }
      // The connection is live, so its channel is open and its writer will receive.
      conn.handed := conn.handed + [message];
    }

    /**
     `answers` are those of the four List calls, in the order in which their senders get through. A failed one hands
     over an error, and its sender then waits for the hub, which waits for its senders: `wedged` reports that.
     */
    method RegisterConn(conn: WebConn, answers: seq<Option<Message>>) returns (wedged: bool)
      requires Valid() && conn !in known
      requires conn.live && conn.open && conn.handed == []
      modifies this, conn`handed
      ensures wedged <==> !conn.isAuxWs && exists a <- answers :: a.None?
      ensures conn.handed == if conn.isAuxWs then [] else Answers(answers)
      ensures wedged ==> conns == old(conns) && connSubscriptions == old(connSubscriptions) && known == old(known)
      ensures !wedged ==> Valid() && known == old(known) + {conn}
      ensures !wedged ==> View() == Handle(old(View()), Joined(conn, conn.isAuxWs, conn.handed))
    {
      if !conn.isAuxWs {
        wedged := false;
        for i := 0 to |answers|
          modifies conn`handed
          invariant conn.live && conn.handed == Answers(answers[..i])
          invariant wedged <==> exists a <- answers[..i] :: a.None?
        {
          assert answers[..i + 1] == answers[..i] + [answers[i]];
          SendConn(conn, Answer(answers[i]));
          wedged := wedged || answers[i].None?;
        }
        assert answers[..|answers|] == answers;
        if wedged {
          return true;
        }
      }
      conns := conns + {conn};
      known := known + {conn};
      wedged := false;
      assert View().handed == old(View()).handed[conn := conn.handed];
      assert View().aux == old(View()).aux + if conn.isAuxWs then {conn} else {};
    }

    method UnregisterConn(conn: WebConn)
      requires Valid()
      modifies this`conns, conn`live, conn`open
      ensures Valid()
      ensures View() == Handle(old(View()), Dropped(conn))
      ensures old(conn.open) && !conn.open ==> !conn.live
    {
      if conn !in conns {
        return;
      }
      conn.live := false;
      conns := conns - {conn};
      assert conn.open;           // the channel is closed once
      conn.open := false;
    }

    /**
     `answer` is what List returned. A failed List hands over an error and then has the hub wait for itself,
     which `wedged` reports.
     */
    method RegisterResourceSubscription(conn: WebConn, topic: Topic, answer: Option<seq<Item>>) returns (wedged: bool)
      requires Valid() && conn in known && topic.PodsOf?
      modifies this`connSubscriptions, conn`handed
      ensures Valid()
      ensures wedged <==> conn !in Subs(old(connSubscriptions), topic) && answer.None?
      ensures !wedged ==>
        View() == Subscribe(old(View()), conn, topic, Resources(topic, if answer.Some? then answer.value else []))
      ensures wedged ==> forall t :: Subs(connSubscriptions, t) == Subs(old(connSubscriptions), t)
      ensures wedged ==> conn.handed == if conn.live then old(conn.handed) + [WebError("PodList")] else old(conn.handed)
    {
      if topic !in connSubscriptions {
        connSubscriptions := connSubscriptions[topic := {}];
        assert View() == old(View()).(subs := connSubscriptions);
        if answer.Some? {
          EmptyTopicDoesNotMatter(old(View()), conn, topic, Resources(topic, answer.value));
        }
      } else if conn in connSubscriptions[topic] {
        return false;
      }
      if answer.None? {
        SendConn(conn, WebError("PodList"));
        return true;
      }
      AddSubscriber(conn, topic, Resources(topic, answer.value));
      wedged := false;
    }

    // What follows a List that succeeded.
    method AddSubscriber(conn: WebConn, topic: Topic, pods: Message)
      requires Valid() && conn in known && topic in connSubscriptions && conn !in connSubscriptions[topic]
      modifies this`connSubscriptions, conn`handed
      ensures Valid()
      ensures View() == Subscribe(old(View()), conn, topic, pods)
      ensures connSubscriptions == old(connSubscriptions)[topic := old(connSubscriptions)[topic] + {conn}]
    {
      SendConn(conn, pods);
      connSubscriptions := connSubscriptions[topic := connSubscriptions[topic] + {conn}];
      assert View().handed == Deliver(old(View()), {conn}, pods);
    }

    /** The range over `conns` for a message of notifyAll. */
    method NotifyAll(e: Event)
      requires Valid() && e.topic.All?
      modifies conns`handed
      ensures Valid()
      ensures View() == Handle(old(View()), Notified(e))
    {
      var rest := conns;
      while rest != {}
        modifies conns`handed
        invariant rest <= conns
        invariant forall c <- known ::
          c.handed == old(c.handed) + if c in conns && c !in rest && !c.isAuxWs then [EventMessage(e)] else []
        decreases rest
      {
        var conn :| conn in rest;
        rest := rest - {conn};
        if !conn.isAuxWs {
          SendConn(conn, EventMessage(e));
        }
      }
      ghost var v := View();
      assert v == old(View()).(handed := v.handed);
      assert v.handed == Deliver(old(View()), conns - v.aux, EventMessage(e));
    }

    /** The range over the subscribers of a pod, deleting those no longer registered on the way. */
    method NotifyResourceSubscriptions(e: Event)
      requires Valid() && e.topic.PodsOf?
      modifies this`connSubscriptions, conns`handed
      ensures Valid()
      ensures View() == Handle(old(View()), Notified(e))
    {
      if e.topic !in connSubscriptions {
        assert View().handed == Deliver(View(), {}, EventMessage(e));
        return;
      }
      var webConnSubscribers := connSubscriptions[e.topic];
      var rest := webConnSubscribers;
      ghost var subscribers, served: set<WebConn> := webConnSubscribers, {};
      while rest != {}
        modifies this`connSubscriptions, conns`handed
        invariant rest <= subscribers
        invariant connSubscriptions == old(connSubscriptions)[e.topic := webConnSubscribers]
        invariant served == (subscribers - rest) * conns
        invariant webConnSubscribers == served + rest
        invariant forall c <- known ::
          c.handed == if c in served then old(c.handed) + [EventMessage(e)] else old(c.handed)
        decreases rest
      {
        var conn :| conn in rest;
        rest := rest - {conn};
        if conn !in conns {
          webConnSubscribers := webConnSubscribers - {conn};
          connSubscriptions := connSubscriptions[e.topic := webConnSubscribers];
        } else {
          SendConn(conn, EventMessage(e));
          served := served + {conn};
        }
      }
      assert webConnSubscribers == served == subscribers * conns;
      assert View().conns == old(View()).conns && View().aux == old(View()).aux && View().gone == old(View()).gone;
      assert View().handed == Deliver(old(View()), subscribers * conns, EventMessage(e));
    }
  }
}
