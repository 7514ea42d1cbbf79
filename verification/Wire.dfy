/**
  Frames and requests exchanged between the host client and one plugin server.

  Request ids are the sequence numbers handed out by the client; the textual
  prefix ("start-", "stop-", ...) carries no information because the number is
  never reused. Task ids are the numbers behind "bg-%d"; 0 is the empty id.
  Payloads stay uninterpreted strings.
 */
module Wire {
  import opened Outcomes

  type ReqId = nat
  type TaskId = nat

  datatype Code = ConfigError | RunError | OtherError

  datatype Body =
    | StartResponse(task: TaskId)
    | StopResponse
    | Error(code: Code)
    | SetOutput(name: string, value: string)
    | MetricFlush(snapshots: string)
    | Artifact(payload: string)
    | Event(task: TaskId, cause: Outcome)
    | OtherBody

  datatype Frame = Frame(req: ReqId, body: Body)

  datatype Request = StartRequest(req: ReqId) | StopRequest(req: ReqId, task: TaskId)

  /** Frames the host applies to the unit's environment instead of handing them to a caller. */
  predicate Lifecycle(b: Body) {
    b.SetOutput? || b.MetricFlush? || b.Artifact?
  }

  /** Lifecycle frames that only the stop handler of a background task writes. */
  predicate Publishes(b: Body) {
    b.SetOutput? || b.MetricFlush?
  }

  /** The published bodies of one start request, in stream order. */
  function Published(stream: seq<Frame>, req: ReqId): seq<Body> {
    if stream == [] then []
    else
      var f := stream[|stream| - 1];
      var front := Published(stream[..|stream| - 1], req);
      if f.req == req && Publishes(f.body) then front + [f.body] else front
  }

  /** The frames of one request from position `from` on, background events left out. */
  function Addressed(stream: seq<Frame>, from: nat, req: ReqId): seq<Frame> {
    if |stream| <= from then []
    else
      var f := stream[|stream| - 1];
      var front := Addressed(stream[..|stream| - 1], from, req);
      if f.req == req && !f.body.Event? then front + [f] else front
  }

  lemma PublishedSnoc(stream: seq<Frame>, f: Frame, req: ReqId)
    ensures Published(stream + [f], req)
         == Published(stream, req) + (if f.req == req && Publishes(f.body) then [f.body] else [])
  {
    assert (stream + [f])[..|stream|] == stream;
  }

  lemma AddressedSnoc(stream: seq<Frame>, f: Frame, from: nat, req: ReqId)
    requires from <= |stream|
    ensures Addressed(stream + [f], from, req)
         == Addressed(stream, from, req) + (if f.req == req && !f.body.Event? then [f] else [])
  {
    assert (stream + [f])[..|stream|] == stream;
  }

  /** Frames past `n` that publish nothing for `req` add nothing. */
  lemma {:induction false} PublishedStable(stream: seq<Frame>, n: nat, req: ReqId)
    requires n <= |stream|
    requires forall k :: n <= k < |stream| ==> !(stream[k].req == req && Publishes(stream[k].body))
    ensures Published(stream, req) == Published(stream[..n], req)
  {
    if n < |stream| {
      PublishedStable(stream[..|stream| - 1], n, req);
      assert stream[..|stream| - 1][..n] == stream[..n];
    } else {
      assert stream[..n] == stream;
    }
  }

  /** Every addressed frame is somewhere in the stream. */
  lemma {:induction false} AddressedAt(stream: seq<Frame>, from: nat, req: ReqId, i: nat) returns (k: nat)
    requires i < |Addressed(stream, from, req)|
    ensures from <= k < |stream| && stream[k] == Addressed(stream, from, req)[i]
    ensures stream[k].req == req && !stream[k].body.Event?
  {
    var n := |stream| - 1;
    if i < |Addressed(stream[..n], from, req)| {
      k := AddressedAt(stream[..n], from, req, i);
    } else {
      k := n;
    }
  }

  lemma {:induction false} PublishedNone(stream: seq<Frame>, req: ReqId)
    requires forall k :: 0 <= k < |stream| && stream[k].req == req ==> !Publishes(stream[k].body)
    ensures Published(stream, req) == []
  {
    PublishedStable(stream, 0, req);
  }
}
