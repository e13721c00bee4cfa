/** The two sessions that write with back-pressure. What an asynchronous operation started stays
    outstanding until its completion handler runs; the handlers run one at a time on a strand. */
module Sessions {

  /** Popping the front of a queue onto what is done changes nothing in the whole. */
  lemma FrontMoves<T>(done: seq<T>, queue: seq<T>, rest: seq<T>)
    requires queue != []
    ensures done + [queue[0]] + queue[1..] == done + queue
    ensures done + [queue[0]] + queue[1..] + rest == done + queue + rest
  {
    assert queue == [queue[0]] + queue[1..];
  }

  // ---------------------------------------------------------------- HTTP with pipelining

  /** A response; `needEof` says that the connection closes after it. */
  datatype Response = Response(body: string, needEof: bool)

  type HttpRequest = string

  const LIMIT := 8

  function Responses(requests: seq<HttpRequest>, respond: HttpRequest -> Response): (r: seq<Response>)
    ensures |r| == |requests| && forall i | 0 <= i < |r| :: r[i] == respond(requests[i])
  {
    seq(|requests|, i requires 0 <= i < |requests| => respond(requests[i]))
  }

  /** `http_session` with its queue. The handler answers each request with one `send`, `respond`. */
  class HttpSession {
    const respond: HttpRequest -> Response
    var items: seq<Response>
    /** The operations that are outstanding. */
    var pendingReads: nat
    var writes: seq<Response>
    /** What happened so far. */
    ghost var requests: seq<HttpRequest>
    ghost var completed: seq<Response>
    ghost var sent: seq<Response>
    ghost var readEnded: bool
    ghost var writeEnded: bool

    /** A read is outstanding exactly while there is room for an answer and no read has failed; a write
        of the first item exactly while there is one and no write failed or closed. What was taken off
        the queue and what is in it are the answers to the requests in their order; what was sent is
        what was taken off, and the response that closed the connection, which stays in the queue. */
    ghost predicate Valid()
      reads this
    {
      && |items| <= LIMIT
      && pendingReads == (if |items| < LIMIT && !readEnded then 1 else 0)
      && writes == (if items != [] && !writeEnded then [items[0]] else [])
      && (readEnded ==> |items| < LIMIT) && (writeEnded ==> items != [])
      && completed + items == Responses(requests, respond)
      && (sent == completed || (writeEnded && sent == completed + [items[0]]))
    }

    /** Construction and `run`. */
    constructor (respond: HttpRequest -> Response)
      ensures Valid() && this.respond == respond && items == [] && pendingReads == 1 && !readEnded && !writeEnded
    {
      this.respond := respond;
      items, writes := [], [];
      requests, completed, sent, readEnded, writeEnded := [], [], [], false, false;
      pendingReads := 1;
    }

    /** `queue::operator()`. */
    method Enqueue(msg: Response)
      modifies `items, `writes
      ensures items == old(items) + [msg]
      ensures writes == if |items| == 1 then old(writes) + [items[0]] else old(writes)
    {
      items := items + [msg];
      if |items| == 1 {
        writes := writes + [items[0]];
      }
    }

    /** `queue::is_full`. */
    predicate IsFull()
      reads this
    {
      |items| >= LIMIT
    }

    method DoRead()
      modifies `pendingReads
      ensures pendingReads == old(pendingReads) + 1
    {
      pendingReads := pendingReads + 1;
    }

    /** `on_read`: a read completed with a request, or it failed or met the end of the stream. */
    method OnRead(ok: bool, request: HttpRequest)
      requires Valid() && pendingReads > 0
      modifies this
      ensures Valid() && completed == old(completed) && sent == old(sent) && writeEnded == old(writeEnded)
      ensures ok ==> !readEnded && requests == old(requests) + [request] && items == old(items) + [respond(request)]
      ensures !ok ==> readEnded && requests == old(requests) && items == old(items)
      ensures |items| <= 8 && pendingReads == if ok && |items| < 8 then 1 else 0
    {
      pendingReads := pendingReads - 1;
      if !ok {
        readEnded := true;
        return;
      }
      requests := requests + [request];
      Enqueue(respond(request));
      assert completed + items == old(completed + items) + [respond(request)];
      if !IsFull() {
        DoRead();
      }
    }

    /** `queue::on_write`. */
    method QueueOnWrite() returns (wasFull: bool)
      requires items != []
      modifies `items, `writes
      ensures wasFull == (|old(items)| >= LIMIT) && items == old(items)[1..]
      ensures writes == if items != [] then old(writes) + [items[0]] else old(writes)
    {
      wasFull := IsFull();
      items := items[1..];
      if items != [] {
        writes := writes + [items[0]];
      }
    }

    /** `on_write`: the outstanding write completed, or it failed. */
    method OnWrite(ok: bool)
      requires Valid() && writes != []
      modifies this
      ensures Valid() && requests == old(requests) && readEnded == old(readEnded)
      ensures writeEnded <==> !ok || old(items[0].needEof)
      ensures !writeEnded ==> completed == old(completed) + [old(items[0])] && items == old(items)[1..]
      ensures writeEnded ==> completed == old(completed) && items == old(items)
      ensures sent == if ok then old(sent) + [old(items[0])] else old(sent)
      ensures |items| <= 8 && pendingReads == if |items| < 8 && !readEnded then 1 else 0
    {
      hide Responses;
      var written := writes[0];
      writes := writes[1..];
      if ok {
        sent := sent + [written];
      }
      if !ok || written.needEof {
        writeEnded := true;
        return;
      }
      FrontMoves(completed, items, []);
      completed := completed + [written];
      var wasFull := QueueOnWrite();
      if wasFull {
        DoRead();
      }
    }

    /** What was sent answers the first requests, in their order, a response that closed included. */
    lemma AnswersInOrder(i: nat)
      requires Valid() && i < |sent|
      ensures i < |requests| && sent[i] == respond(requests[i])
    {
      assert (completed + items)[i] == sent[i];
    }
  }

  // ---------------------------------------------------------------- web socket

  /** `ws_session`: `write` posts a task to the strand, and the tasks run in the order of the posts. */
  class WsSession {
    var que: seq<string>
    var posts: seq<string>
    /** The write that is outstanding. */
    var writes: seq<string>
    ghost var posted: seq<string>
    ghost var completed: seq<string>
    ghost var failed: bool

    /** One write of the first frame is outstanding exactly while there is one and no write failed; the
        frames leave in the order in which they were posted, and none is lost. */
    ghost predicate Valid()
      reads this
    {
      && writes == (if que != [] && !failed then [que[0]] else [])
      && (failed ==> que != [])
      && completed + que + posts == posted
    }

    constructor ()
      ensures Valid() && posted == [] && !failed
    {
      que, posts, writes := [], [], [];
      posted, completed, failed := [], [], false;
    }

    /** `write`, on any thread. */
    method Write(value: string)
      requires Valid()
      modifies `posts, `posted
      ensures Valid() && posted == old(posted) + [value] && posts == old(posts) + [value]
    {
      posts := posts + [value];
      posted := posted + [value];
    }

    /** The task that `write` posted, on the strand. */
    method RunPosted()
      requires Valid() && posts != []
      modifies `posts, `que, `writes
      ensures Valid() && que == old(que) + [old(posts)[0]] && posts == old(posts)[1..]
    {
      var value := posts[0];
      assert posts == [posts[0]] + posts[1..];
      posts := posts[1..];
      var writeInProgress := que != [];
      que := que + [value];
      if !writeInProgress {
        writes := writes + [que[0]];
      }
      assert completed + que + posts == old(completed + que + posts);
    }

    /** `on_write`. */
    method OnWrite(ok: bool)
      requires Valid() && writes != []
      modifies `que, `writes, `completed, `failed
      ensures Valid() && failed == !ok
      ensures ok ==> completed == old(completed) + [old(que)[0]] && que == old(que)[1..]
      ensures !ok ==> completed == old(completed) && que == old(que)
    {
      var written := writes[0];
      writes := writes[1..];
      if !ok {
        failed := true;
        return;
      }
      FrontMoves(completed, que, posts);
      completed := completed + [written];
      que := que[1..];
      if que != [] {
        writes := writes + [que[0]];
      }
    }
  }
}
