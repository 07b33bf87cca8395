/**
 * The checks `download_replay` makes on the upstream host's answer before
 * it hands a game on: the HTTP status, then whether the body is JSON, then
 * its `success` flag, then its `game` object. Building and sending the
 * request is not part of this model: what came back is the `Reply` input.
 */
module Download {
  import opened Basics

  /** A `serde_json::Value`. Numbers are kept as integers; an object maps each key to its value. */
  datatype Json =
    | Null
    | Bool(b: bool)
    | Number(n: int)
    | Str(s: string)
    | Array(items: seq<Json>)
    | Object(fields: map<string, Json>)

  /** `Value::get(key)`: the value under `key` in an object; nothing for a missing key or a value that is not an object. */
  function Get(v: Json, key: string): (r: Option<Json>)
    ensures r.Some? <==> v.Object? && key in v.fields
    ensures r.Some? ==> r.value == v.fields[key]
  {
    if v.Object? && key in v.fields then Some(v.fields[key]) else None
  }

  /**
   * What the request produced: a failure to send it, or a status code and
   * the body, which is `None` when it does not decode as JSON.
   */
  datatype Reply = SendFailed | Received(status: nat, body: Option<Json>)

  /** `DownloadError`; a request error keeps the status that caused it, if there was one. */
  datatype DownloadError = Unsuccessful | Corrupted | Request(status: Option<nat>)

  /** `error_for_status`: client errors (4xx) and server errors (5xx) are errors, every other status passes. */
  predicate ErrorStatus(status: nat)
  {
    400 <= status < 600
  }

  /** The reply got past the transport and status checks and its body is JSON. */
  predicate Decodable(reply: Reply)
  {
    reply.Received? && !ErrorStatus(reply.status) && reply.body.Some?
  }

  /**
   * `download_replay` from the status check on (src/io.rs:55-86): every
   * failure mapped to its error kind, or the `game` object. The
   * `success` flag decides before `game` is looked at.
   */
  function Classify(reply: Reply): (r: Result<Json, DownloadError>)
    ensures r.Err? && r.error.Request? <==> reply.SendFailed? || ErrorStatus(reply.status)
    ensures r == Err(Unsuccessful) <==> Decodable(reply) && Get(reply.body.value, "success") == Some(Bool(false))
    ensures r.Ok? <==>
      && Decodable(reply)
      && Get(reply.body.value, "success") == Some(Bool(true))
      && Get(reply.body.value, "game").Some? && Get(reply.body.value, "game").value.Object?
    ensures r.Ok? ==> r.value == reply.body.value.fields["game"] && r.value.Object?
  {
    match reply
    case SendFailed => Err(Request(None))
    case Received(status, body) =>
      if ErrorStatus(status) then Err(Request(Some(status)))
      else if body.None? then Err(Corrupted)
      else
        match Get(body.value, "success")
        case None => Err(Corrupted)
        case Some(success) =>
          if !success.Bool? then Err(Corrupted)
          else if success != Bool(true) then Err(Unsuccessful)
          else
            match Get(body.value, "game")
            case None => Err(Corrupted)
            case Some(game) => if game.Object? then Ok(game) else Err(Corrupted)
  }

  /**
   * The answer is `Corrupted` exactly when the status passed but the body
   * is not JSON, its `success` is missing or not a boolean, or it says
   * `true` but `game` is missing or not an object.
   */
  lemma CorruptedMeaning(reply: Reply)
    ensures Classify(reply) == Err(Corrupted) <==>
      && reply.Received? && !ErrorStatus(reply.status)
      && (|| reply.body.None?
          || Get(reply.body.value, "success").None?
          || !Get(reply.body.value, "success").value.Bool?
          || (&& Get(reply.body.value, "success") == Some(Bool(true))
              && (Get(reply.body.value, "game").None? || !Get(reply.body.value, "game").value.Object?)))
  {
  }

  /** With `success: false` the answer is `Unsuccessful` whatever `game` holds, or whether it is there at all. */
  lemma UnsuccessfulFirst(status: nat, fields: map<string, Json>, game: Option<Json>)
    requires !ErrorStatus(status) && "success" in fields && fields["success"] == Bool(false)
    ensures var body := if game.Some? then fields["game" := game.value] else fields - {"game"};
      Classify(Received(status, Some(Object(body)))) == Err(Unsuccessful)
  {
    var body := if game.Some? then fields["game" := game.value] else fields - {"game"};
    assert "success" in body && body["success"] == Bool(false);
  }

  /** Only the status, whether the body is JSON, and its `success` and `game` fields matter to the answer. */
  lemma OnlyTwoFields(status: nat, a: map<string, Json>, b: map<string, Json>)
    requires Get(Object(a), "success") == Get(Object(b), "success")
    requires Get(Object(a), "game") == Get(Object(b), "game")
    ensures Classify(Received(status, Some(Object(a)))) == Classify(Received(status, Some(Object(b))))
  {
  }
}
