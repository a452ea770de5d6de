/** A session's message handlers (server/session.go) as one goroutine executes them. */
module Sessions {
  import opened Broker
  import opened Bytes
  import opened Codec
  import opened Replies
  import opened Routing
  import opened Tables
  import opened Utf8

  /** The message SendOK builds. */
  method EncodeOk(text: Str) returns (encoded: array<Byte>)
    ensures fresh(encoded) && encoded[..] == Frame(OkMessage(text))
  {
    var cut := TruncateUTF8(text, MAX_SUBJECT_LEN);
    encoded := Encode(Message(CMD_OK, cut, []));
  }

  class Session {
    const id: SessionId
    const router: Router
    var subjects: seq<Str>

    constructor (id: SessionId, router: Router)
      ensures this.id == id && this.router == router && subjects == []
    {
      this.id, this.router, subjects := id, router, [];
    }

    /** The session's list is duplicate-free and is what the router holds for the session. */
    ghost predicate Agrees()
      reads this, router
    {
      NoDup(subjects) && forall p :: p in subjects <==> (p, id) in router.Held()
    }

    method HandleSubscribe(msg: Message) returns (reply: array<Byte>)
      requires router.Valid() && msg.command == CMD_SUB
      modifies this, router
      ensures router.Valid()
      ensures subjects == Handle(id, old(subjects), msg, []).0
      ensures router.Held() == if msg.subject in old(subjects) then old(router.Held())
                               else SetStep(old(router.Held()), Subscribe(msg.subject, id))
      ensures old(Agrees()) ==> Agrees()
      ensures reply[..] == Frame(SubscribedReply(msg.subject))
    {
      var known := false;
      for i := 0 to |subjects|
        invariant unchanged(this) && unchanged(router)
        invariant known || msg.subject !in subjects[..i]
        invariant known ==> msg.subject in subjects
      {
        if subjects[i] == msg.subject {
          known := true;
          break;
        }
      }
      assert subjects[..|subjects|] == subjects;
      if !known {
        if NoDup(subjects) {
          NoDupAppend(subjects, msg.subject);
        }
        subjects := subjects + [msg.subject];
        router.Subscribe(msg.subject, id);
      }
      reply := EncodeOk(SUBSCRIBED_TO + msg.subject);
    }

    method HandleUnsubscribe(msg: Message) returns (reply: array<Byte>)
      requires router.Valid() && msg.command == CMD_UNSUB
      modifies this, router
      ensures router.Valid()
      ensures subjects == Handle(id, old(subjects), msg, []).0
      ensures router.Held() == SetStep(old(router.Held()), Unsubscribe(msg.subject, id))
      ensures old(Agrees()) ==> Agrees()
      ensures reply[..] == Frame(UnsubscribedReply(msg.subject))
    {
      if NoDup(subjects) {
        WithoutNoDup(subjects, msg.subject);
      }
      subjects := Compacted(subjects, msg.subject);
      router.Unsubscribe(msg.subject, id);
      reply := EncodeOk(UNSUBSCRIBED_FROM + msg.subject);
    }

    /** The frame is encoded once, and `targets` are the sessions it is offered to, each once. */
    method HandlePublish(msg: Message) returns (targets: seq<SessionId>, encoded: array<Byte>)
      ensures NoDup(targets)
      ensures (set x | x in targets) == Subscribers(router.Held(), msg.subject)
      ensures encoded[..] == Frame(Message(CMD_MSG, msg.subject, msg.payload))
    {
      targets := router.FindSubscribers(msg.subject);
      assert forall x :: x in (set y | y in targets) <==> x in Subscribers(router.Held(), msg.subject);
      encoded := Encode(Message(CMD_MSG, msg.subject, msg.payload));
    }
  }
}
