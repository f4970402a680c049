/** The arbiter's backend: one message taken from the enrol queue, dispatched, and answered
    (chamge/amqp-arbiter-backend.c). */
module Arbiter {
  import opened Common
  import opened Json
  import opened Requests
  import opened Registry
  import opened Messages
  import opened Loop

  function EffectFor(env: Envelope): Effect
  {
    if Served(env) then Dispatch(env.body.value).effect else NoEffect
  }

  function ReplyTo(env: Envelope): Option<Posted>
  {
    if Served(env) then Some(ReplyWith(env, Dispatch(env.body.value).answer)) else None
  }

  class Backend {
    const agent: Agent
    var activated: bool
    var processId: nat

    constructor (agent: Agent)
      ensures this.agent == agent && !activated && processId == 0
    {
      this.agent := agent;
      activated, processId := false, 0;
    }

    /** The dispatcher, which changes the agent's lists through the callbacks. */
    method ProcessJson(body: string) returns (answer: string)
      modifies agent
      ensures answer == Dispatch(body).answer
      ensures agent.Value() == Apply(old(agent.Value()), Dispatch(body).effect)
    {
      hide ReadObject, TextOf, Answer;
      var root := ReadObject(body);
      if root.None? {
        return Answer("failed to parse body");
      }
      var device := TextOf(root.value, "deviceType");
      if device.None? {
        return Answer("device type is missing");
      }
      var verb := TextOf(root.value, "method");
      if verb.None? {
        return Answer("method is missing");
      }
      if device.value == "edge" {
        var id := TextOf(root.value, "edgeId");
        if id.None? {
          return Answer("edgeId does not exist");
        }
        if verb.value == "enroll" {
          agent.EdgeEnrolled(id.value);
          answer := Answer("enrolled");
        } else if verb.value == "activate" {
          answer := Answer("activated");
        } else if verb.value == "deactivate" {
          answer := Answer("deactivated");
        } else if verb.value == "delist" {
          agent.EdgeDelisted(id.value);
          answer := Answer("delisted");
        } else {
          answer := Answer("method(" + verb.value + ") is not supported");
        }
      } else if device.value == "hub" {
        var id := TextOf(root.value, "hubId");
        if id.None? {
          return Answer("hubId does not exist");
        }
        if verb.value == "enroll" {
          agent.HubEnrolled(id.value);
          answer := Answer("enrolled");
        } else if verb.value == "activate" {
          answer := Answer("activated");
        } else if verb.value == "deactivate" {
          answer := Answer("deactivated");
        } else if verb.value == "delist" {
          agent.HubDelisted(id.value);
          answer := Answer("delisted");
        } else {
          answer := Answer("method(" + verb.value + ") is not supported");
        }
      } else {
        answer := Answer("unknown device type (" + device.value + ")");
      }
    }

    /** One turn of the idle handler. It is removed once the backend is not activated; otherwise it
        serves what was drawn and publishes at most one reply, to a reply queue that exists. */
    method ProcessMessage(drawn: Arrival, replyQueueExists: bool)
      returns (keep: bool, posted: Option<Posted>)
      modifies agent
      ensures keep == activated
      ensures posted == if activated && drawn.Message? && replyQueueExists then ReplyTo(drawn.env) else None
      ensures posted.Some? <==> activated && drawn.Message? && replyQueueExists && Served(drawn.env)
      ensures posted.Some? ==> AnswersTo(drawn.env, Dispatch(drawn.env.body.value).answer, posted.value)
      ensures agent.Value() ==
              if activated && drawn.Message? then Apply(old(agent.Value()), EffectFor(drawn.env))
              else old(agent.Value())
      ensures agent.Value() ==
              if activated && drawn.Message? && Served(drawn.env) then
                Apply(old(agent.Value()), Dispatch(drawn.env.body.value).effect)
              else old(agent.Value())
    {
      posted := None;
      if !activated {
        return false, None;
      }
      keep := true;
      if drawn.Quiet? || drawn.Abnormal? {
        return;
      }
      var env := drawn.env;
      if env.body.None? {
        return;
      }
      if env.contentType.None? || |JSON_TYPE| != |env.contentType.value| || !IsJson(env.contentType) {
        return;
      }
      if !Usable(env.replyTo) {
        return;
      }
      var cid := if Usable(env.cid) then env.cid else None;
      var answer := ProcessJson(env.body.value);
      if !replyQueueExists {
        return;
      }
      posted := Some(Posted(env.replyTo.value, Envelope(Some(answer), Some(JSON_TYPE), None, cid)));
    }

    /** Attaches the idle handler. */
    method Activate(loop: MainLoop) returns (ret: Return)
      modifies this`activated, this`processId, loop
      ensures ret == Ok && activated && processId == old(loop.next)
      ensures loop.sources == old(loop.sources) + {processId} && loop.next == old(loop.next) + 1
    {
      processId := loop.Attach();
      activated := true;
      ret := Ok;
    }

    /** Removes the idle handler this backend attached last, and no other. */
    method Deactivate(loop: MainLoop) returns (ret: Return)
      modifies this`activated, this`processId, loop`sources
      ensures ret == Ok && !activated && processId == 0
      ensures loop.sources == if old(processId) != 0 then old(loop.sources) - {old(processId)} else old(loop.sources)
    {
      activated := false;
      if processId != 0 {
        loop.Remove(processId);
        processId := 0;
      }
      ret := Ok;
    }
  }

  // ---- requests as nodes send them ----

  /** A node's request is served: it has exactly its operation's effect, and the one reply goes to
      the queue it named with the correlation id it carried. */
  lemma NodeRequestServed(op: Op, kind: Kind, id: string, replyTo: string, cid: string)
    requires Plain(id)
    requires replyTo != [] && NulFree(replyTo) && cid != [] && NulFree(cid)
    ensures var env := Sending(PrintRequest(op, kind, id), replyTo, cid);
            EffectFor(env) == EffectOf(op, kind, id) &&
            ReplyTo(env) == Some(Posted(replyTo, Envelope(Some(Answer(Expected(op))), Some("application/json"), None,
              Some(cid))))
  {
    hide PrintRequest, Dispatch, Answer, Expected, IsJson;
    RequestServed(op, kind, id);
    SendingServed(PrintRequest(op, kind, id), replyTo, cid, Answer(Expected(op)));
  }

  /** So is any other text that is sent to the enrol queue with those properties. */
  lemma TextServed(text: string, replyTo: string, cid: string)
    requires replyTo != [] && NulFree(replyTo) && cid != [] && NulFree(cid)
    ensures var env := Sending(text, replyTo, cid);
            EffectFor(env) == Dispatch(text).effect &&
            ReplyTo(env) == Some(Posted(replyTo, Envelope(Some(Dispatch(text).answer), Some("application/json"), None,
              Some(cid))))
  {
    hide Dispatch, IsJson;
    SendingServed(text, replyTo, cid, Dispatch(text).answer);
  }
}
