/** The messages of the system and their properties: requests, commands and the replies to both. */
module Messages {
  import opened Common
  import opened Json
  import opened Requests

  const JSON_TYPE := "application/json"

  /** A message with the properties this system uses; each may be absent. */
  datatype Envelope = Envelope(body: Option<string>, contentType: Option<string>,
                               replyTo: Option<string>, cid: Option<string>)

  /** What a draw from a connection gives to a message handler. */
  datatype Arrival = Message(env: Envelope) | Quiet | Abnormal

  /** A message published to the queue of that name through the default exchange. */
  datatype Posted = Posted(queue: string, env: Envelope)

  function Lower(c: char): char
  {
    if 'A' <= c <= 'Z' then (c as int + 32) as char else c
  }

  predicate IsJson(contentType: Option<string>)
  {
    contentType.Some? && |contentType.value| == |JSON_TYPE| &&
    forall i | 0 <= i < |JSON_TYPE| :: Lower(contentType.value[i]) == JSON_TYPE[i]
  }

  lemma JsonTypeIsJson()
    ensures IsJson(Some(JSON_TYPE))
  {
  }

  /** A property that is present, not empty, and not cut short by a NUL. */
  predicate Usable(s: Option<string>)
  {
    s.Some? && s.value != [] && NulFree(s.value)
  }

  /** Messages a handler serves; it drops the others. */
  predicate Served(env: Envelope)
  {
    env.body.Some? && IsJson(env.contentType) && Usable(env.replyTo)
  }

  /** The reply to a served message: it goes to the queue the message names, under the message's
      correlation id. */
  function ReplyWith(env: Envelope, answer: string): Posted
    requires Served(env)
  {
    Posted(env.replyTo.value, Envelope(Some(answer), Some(JSON_TYPE), None, if Usable(env.cid) then env.cid else None))
  }

  /** A text sent as a request or a command, with the properties _amqp_rpc_request sets. */
  function Sending(text: string, replyTo: string, cid: string): Envelope
  {
    Envelope(Some(text), Some(JSON_TYPE), Some(replyTo), Some(cid))
  }

  /** A message is served exactly when it has a body, its content type is application/json in letters
      of either case, and it names a reply queue by a text that is not empty and holds no NUL. */
  lemma ServedExactly(env: Envelope)
    ensures Served(env) <==>
            && env.body.Some? && env.contentType.Some? && |env.contentType.value| == 16
            && (forall i | 0 <= i < 16 :: SameLetter(env.contentType.value[i], "application/json"[i]))
            && env.replyTo.Some? && env.replyTo.value != [] && NulFree(env.replyTo.value)
  {
    if env.contentType.Some? && |env.contentType.value| == 16 {
      var t := env.contentType.value;
      forall i | 0 <= i < 16
        ensures Lower(t[i]) == JSON_TYPE[i] <==> SameLetter(t[i], "application/json"[i])
      {
        assert JSON_TYPE[i] == "application/json"[i] && !('A' <= JSON_TYPE[i] <= 'Z');
      }
    }
  }

  /** The character is the wanted one, or the capital of the wanted letter. */
  predicate SameLetter(c: char, wanted: char)
  {
    c == wanted || ('a' <= wanted <= 'z' && c as int + 32 == wanted as int)
  }

  /** A text sent as a request or a command is served, and its reply goes back under its id. */
  lemma SendingServed(text: string, replyTo: string, cid: string, answer: string)
    requires replyTo != [] && NulFree(replyTo) && cid != [] && NulFree(cid)
    ensures Sending(text, replyTo, cid) == Envelope(Some(text), Some("application/json"), Some(replyTo), Some(cid))
    ensures Served(Sending(text, replyTo, cid))
    ensures ReplyWith(Sending(text, replyTo, cid), answer) ==
            Posted(replyTo, Envelope(Some(answer), Some("application/json"), None, Some(cid)))
  {
    hide IsJson;
    JsonTypeIsJson();
  }

  /** The message posted gives this answer to the one served: to the queue it names, and under its id
      unless that is missing, empty or cut short by a NUL. */
  predicate AnswersTo(env: Envelope, answer: string, posted: Posted)
  {
    && env.replyTo == Some(posted.queue) && posted.env.body == Some(answer)
    && posted.env.contentType == Some("application/json") && posted.env.replyTo == None
    && posted.env.cid == if env.cid.Some? && env.cid.value != [] && NulFree(env.cid.value) then env.cid else None
  }

  // ---- commands at a node (chamge/amqp-edge-backend.c, chamge/amqp-hub-backend.c) ----

  /** What a node answers to a command; `handled` is the response its user's handler gave, if any. */
  function CommandAnswer(body: string, handled: Option<string>): string
  {
    if ReadObject(body).None? then Answer("failed to parse body")
    else if handled.None? then Answer("not ok")
    else handled.value
  }

  function CommandReply(env: Envelope, handled: Option<string>): Option<Posted>
  {
    if Served(env) then Some(ReplyWith(env, CommandAnswer(env.body.value, handled))) else None
  }
}
