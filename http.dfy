/**
 * Model of pkg/server/http.go: the HTTP front end of a node. It routes on
 * the path prefix and the method, and each handler ends in a sequence of
 * `WriteHeader` and `Write` calls on the response writer, after at most one
 * call into the node's Raft engine.
 *
 * The node (its Raft engine and its state machine's `stateValue` map) and
 * JSON encoding are oracles: `Env` says what each of them answers.
 */
module Http {
  import opened Common

  const StatusOK: int := 200
  const StatusBadRequest: int := 400
  const StatusNotFound: int := 404
  const StatusMethodNotAllowed: int := 405
  const StatusInternalServerError: int := 500

  const KeyPath: string := "/key"
  const JoinPath: string := "/join"
  const MethodPost: string := "POST"
  const MethodGet: string := "GET"

  const NotFoundBody: string := "{\"status\": \"404 not found\"}"
  const InternalErrorBody: string := "{\"status\": \"internal server error\"}"

  /**
   * A request as the handlers see it: method, URL path, the outcome of
   * decoding the JSON body `{"value": <int>}` (None when decoding fails),
   * and the `Peer-Address` header ("" when absent).
   */
  datatype Request = Request(httpMethod: string, path: string, body: Option<int>, peerAddress: string)

  /** The event a POST submits to Raft. */
  datatype KeyEvent = KeyEvent(typ: string, key: string, value: int)

  /** The JSON document a GET answers with. */
  datatype GetResponse = GetResponse(value: int, isLeader: string, nodes: string)

  /** What one `Write` sends: literal text, or the JSON encoding of a GET response. */
  datatype Chunk = Text(text: string) | Encoded(response: GetResponse)

  /** One call on the response writer. */
  datatype WriterOp = Header(code: int) | Body(chunk: Chunk)

  /**
   * The node and the JSON encoder: the state machine's map, the leader
   * address, whether Apply or AddVoter return an error for a given
   * argument, and whether marshalling a given value fails.
   */
  datatype Env = Env(
    stateValue: map<string, int>,
    leader: string,
    applyFails: KeyEvent -> bool,
    addVoterFails: VoterCall -> bool,
    eventMarshalFails: KeyEvent -> bool,
    responseMarshalFails: GetResponse -> bool)

  /** The observable effect of a request: writer calls, Raft Apply calls, AddVoter calls. */
  datatype Effect = Effect(ops: seq<WriterOp>, applied: seq<KeyEvent>, joins: seq<VoterCall>)

  /**
   * The status the client receives. The first `WriteHeader` fixes it; a
   * `Write` before any header, or no call at all, sends 200; every later
   * `WriteHeader` is ignored.
   */
  function Status(ops: seq<WriterOp>): (code: int)
  {
    if ops != [] && ops[0].Header? then ops[0].code else StatusOK
  }

  /** The body chunks the client receives, in order. */
  function Sent(ops: seq<WriterOp>): (chunks: seq<Chunk>)
  {
    if ops == [] then [] else (if ops[0].Body? then [ops[0].chunk] else []) + Sent(ops[1..])
  }

  // ---------------------------------------------------------------------
  // Routing
  // ---------------------------------------------------------------------

  datatype Route = KeyRoute | JoinRoute | BadRoute

  /** `ServeHTTP`'s dispatch: the `/key` test comes first, then `/join`; anything else is a bad request. */
  function RouteOf(path: string): (r: Route)
    ensures r == KeyRoute <==> HasPrefix(path, KeyPath)
    ensures r == JoinRoute <==> !HasPrefix(path, KeyPath) && HasPrefix(path, JoinPath)
    ensures r == BadRoute <==> !HasPrefix(path, KeyPath) && !HasPrefix(path, JoinPath)
  {
    if HasPrefix(path, KeyPath) then KeyRoute
    else if HasPrefix(path, JoinPath) then JoinRoute
    else BadRoute
  }

  datatype KeyHandler = PostHandler | GetHandler | NotAllowed

  /** `handleRequest`'s dispatch on the method: POST and GET have handlers, every other method is refused. */
  function KeyHandlerOf(httpMethod: string): (h: KeyHandler)
    ensures h == PostHandler <==> httpMethod == MethodPost
    ensures h == GetHandler <==> httpMethod == MethodGet
    ensures h == NotAllowed <==> httpMethod != MethodPost && httpMethod != MethodGet
  {
    if httpMethod == MethodPost then PostHandler
    else if httpMethod == MethodGet then GetHandler
    else NotAllowed
  }

  /** `/key` and `/join` never both prefix a path, so the order of the two tests decides nothing. */
  lemma RoutePrefixesExclusive(path: string)
    ensures !(HasPrefix(path, KeyPath) && HasPrefix(path, JoinPath))
  {
    if HasPrefix(path, KeyPath) {
      assert path[1] == KeyPath[1] != JoinPath[1];
    }
  }

  // ---------------------------------------------------------------------
  // removeKeyPath: strings.Replace(s, "/key", "", 1)
  // ---------------------------------------------------------------------

  /** `/key` occurs in `s` at position i. */
  predicate KeyPathAt(s: string, i: int)
  {
    0 <= i && i + |KeyPath| <= |s| && s[i..i + |KeyPath|] == KeyPath
  }

  /** Dropping the first character shifts every occurrence of `/key` one place to the left. */
  lemma KeyPathShift(s: string, j: nat)
    requires s != []
    ensures KeyPathAt(s[1..], j) <==> KeyPathAt(s, j + 1)
  {
    if j + 1 + |KeyPath| <= |s| {
      assert s[1..][j..j + |KeyPath|] == s[j + 1..j + 1 + |KeyPath|];
    }
  }

  /** `removeKeyPath`: deletes the first occurrence of `/key`, wherever it is. */
  function RemoveKeyPath(s: string): (r: string)
    ensures HasPrefix(s, KeyPath) ==> r == s[|KeyPath|..]
    ensures (forall i :: !KeyPathAt(s, i)) ==> r == s
    ensures (exists i :: KeyPathAt(s, i)) ==> |r| == |s| - |KeyPath|
    decreases |s|
  {
    if |s| < |KeyPath| then s
    else if s[..|KeyPath|] == KeyPath then
      assert KeyPathAt(s, 0);
      s[|KeyPath|..]
    else
      assert (forall i :: !KeyPathAt(s, i)) ==> forall i :: !KeyPathAt(s[1..], i) by {
        forall i | 0 <= i ensures KeyPathAt(s[1..], i) ==> KeyPathAt(s, i + 1) {
          KeyPathShift(s, i);
        }
      }
      assert (exists i :: KeyPathAt(s, i)) ==> exists i :: KeyPathAt(s[1..], i) by {
        if exists i :: KeyPathAt(s, i) {
          var i :| KeyPathAt(s, i);
          assert i != 0;
          KeyPathShift(s, i - 1);
        }
      }
      [s[0]] + RemoveKeyPath(s[1..])
  }

  /** The result is the text before the first occurrence of `/key` followed by the text after it. */
  lemma {:induction false} RemoveKeyPathFirst(s: string, i: nat)
    requires KeyPathAt(s, i)
    requires forall j :: 0 <= j < i ==> !KeyPathAt(s, j)
    ensures RemoveKeyPath(s) == s[..i] + s[i + |KeyPath|..]
    decreases i
  {
    if i == 0 {
      assert HasPrefix(s, KeyPath);
    } else {
      var t := s[1..];
      assert !KeyPathAt(s, 0);
      assert RemoveKeyPath(s) == [s[0]] + RemoveKeyPath(t);
      KeyPathShift(s, i - 1);
      forall j | 0 <= j < i - 1 ensures !KeyPathAt(t, j) {
        KeyPathShift(s, j);
      }
      RemoveKeyPathFirst(t, i - 1);
      assert t[..i - 1] == s[1..i];
      assert t[i - 1 + |KeyPath|..] == s[i + |KeyPath|..];
      assert [s[0]] + s[1..i] == s[..i];
    }
  }

  // ---------------------------------------------------------------------
  // What each handler does
  // ---------------------------------------------------------------------

  /** Headers written before some calls add nothing to the body. */
  lemma {:induction false} SentAfterHeaders(hs: seq<WriterOp>, ops: seq<WriterOp>)
    requires forall i :: 0 <= i < |hs| ==> hs[i].Header?
    ensures Sent(hs + ops) == Sent(ops)
    decreases |hs|
  {
    if hs != [] {
      assert (hs + ops)[0] == hs[0];
      assert (hs + ops)[1..] == hs[1..] + ops;
      SentAfterHeaders(hs[1..], ops);
    } else {
      assert hs + ops == ops;
    }
  }

  /** `statusNotFound`: a 404 header, then the not-found JSON body. */
  function NotFoundOps(): (ops: seq<WriterOp>)
  {
    [Header(StatusNotFound), Body(Text(NotFoundBody))]
  }

  /** `statusInternalError`: a 500 header, then the internal-error JSON body. */
  function InternalErrorOps(): (ops: seq<WriterOp>)
  {
    [Header(StatusInternalServerError), Body(Text(InternalErrorBody))]
  }

  /**
   * `handleKeyPost`: a body that does not decode is refused with 400 and
   * nothing is applied; otherwise a "set" event for the stripped path and
   * the decoded value is applied, unless it cannot be marshalled, and the
   * status is 500 on any error and 200 otherwise.
   */
  function KeyPostEffect(env: Env, r: Request): (e: Effect)
    ensures e.joins == []
    ensures r.body.None? ==> e.ops == [Header(StatusBadRequest)] && e.applied == []
    ensures r.body.Some? ==>
      var ev := KeyEvent("set", RemoveKeyPath(r.path), r.body.value);
      e.applied == (if env.eventMarshalFails(ev) then [] else [ev])
    ensures r.body.Some? ==>
      var ev := KeyEvent("set", RemoveKeyPath(r.path), r.body.value);
      Status(e.ops) == if env.eventMarshalFails(ev) || env.applyFails(ev) then StatusInternalServerError else StatusOK
    ensures r.body.Some? ==>
      var ev := KeyEvent("set", RemoveKeyPath(r.path), r.body.value);
      Sent(e.ops) == if env.eventMarshalFails(ev) || env.applyFails(ev) then [Text(InternalErrorBody)] else []
    ensures r.body.None? ==> Sent(e.ops) == []
  {
    var key := RemoveKeyPath(r.path);
    match r.body
    case None => Effect([Header(StatusBadRequest)], [], [])
    case Some(value) =>
      var ev := KeyEvent("set", key, value);
      SentAfterHeaders([Header(StatusInternalServerError)], [Body(Text(InternalErrorBody))]);
      if env.eventMarshalFails(ev) then Effect(InternalErrorOps(), [], [])
      else if env.applyFails(ev) then Effect(InternalErrorOps(), [ev], [])
      else Effect([Header(StatusOK)], [ev], [])
  }

  /**
   * `handleKeyGet`: 200 is written before the lookup, so the client always
   * receives 200. A missing key then also writes 404 and the not-found
   * body; a present key is answered with its value and the leader address.
   */
  function KeyGetEffect(env: Env, r: Request): (e: Effect)
    ensures e.applied == [] && e.joins == []
    ensures e.ops != [] && e.ops[0] == Header(StatusOK) && Status(e.ops) == StatusOK
    ensures RemoveKeyPath(r.path) !in env.stateValue ==>
      Header(StatusNotFound) in e.ops && Sent(e.ops) == [Text(NotFoundBody)]
    ensures RemoveKeyPath(r.path) in env.stateValue ==>
      var resp := GetResponse(env.stateValue[RemoveKeyPath(r.path)], env.leader, "");
      Sent(e.ops) == [if env.responseMarshalFails(resp) then Text(InternalErrorBody) else Encoded(resp)]
  {
    var key := RemoveKeyPath(r.path);
    if key !in env.stateValue then
      SentAfterHeaders([Header(StatusOK)], NotFoundOps());
      Effect([Header(StatusOK)] + NotFoundOps(), [], [])
    else
      var resp := GetResponse(env.stateValue[key], env.leader, "");
      SentAfterHeaders([Header(StatusOK)], InternalErrorOps());
      SentAfterHeaders([Header(StatusOK)], [Body(Encoded(resp))]);
      if env.responseMarshalFails(resp) then Effect([Header(StatusOK)] + InternalErrorOps(), [], [])
      else Effect([Header(StatusOK)] + [Body(Encoded(resp))], [], [])
  }

  /**
   * `handleJoin`: AddVoter is always called once, with the peer address as
   * both id and address, even when the header is missing; a missing header
   * fixes the status at 400, otherwise it is 500 on an AddVoter error and 200
   * on success.
   */
  function JoinEffect(env: Env, r: Request): (e: Effect)
    ensures e.applied == [] && e.joins == [VoterCall(r.peerAddress, r.peerAddress)]
    ensures r.peerAddress == "" ==> e.ops != [] && e.ops[0] == Header(StatusBadRequest)
    ensures Status(e.ops) ==
      if r.peerAddress == "" then StatusBadRequest
      else if env.addVoterFails(e.joins[0]) then StatusInternalServerError
      else StatusOK
    ensures Sent(e.ops) == if env.addVoterFails(e.joins[0]) then [Text(InternalErrorBody)] else []
  {
    var call := VoterCall(r.peerAddress, r.peerAddress);
    var missing := if r.peerAddress == "" then [Header(StatusBadRequest)] else [];
    SentAfterHeaders(missing, InternalErrorOps());
    SentAfterHeaders([Header(StatusInternalServerError)], [Body(Text(InternalErrorBody))]);
    SentAfterHeaders(missing + [Header(StatusOK)], []);
    assert missing + [Header(StatusOK)] + [] == missing + [Header(StatusOK)];
    if env.addVoterFails(call) then Effect(missing + InternalErrorOps(), [], [call])
    else Effect(missing + [Header(StatusOK)], [], [call])
  }

  /** `handleRequest`: POST and GET go to their handlers; any other method gets 405 and touches nothing. */
  function KeyRequestEffect(env: Env, r: Request): (e: Effect)
    ensures e.joins == []
    ensures r.httpMethod == MethodPost ==> e == KeyPostEffect(env, r)
    ensures r.httpMethod == MethodGet ==> e == KeyGetEffect(env, r)
    ensures r.httpMethod != MethodPost && r.httpMethod != MethodGet ==> e == Effect([Header(StatusMethodNotAllowed)], [], [])
  {
    match KeyHandlerOf(r.httpMethod)
    case PostHandler => KeyPostEffect(env, r)
    case GetHandler => KeyGetEffect(env, r)
    case NotAllowed => Effect([Header(StatusMethodNotAllowed)], [], [])
  }

  /**
   * `ServeHTTP`: the whole effect of one request. The client only ever sees
   * 200, 400, 405 or 500 (never 404); at most one call reaches Raft; an
   * Apply happens only for a decodable POST under `/key`, an AddVoter only
   * under `/join`; any other path gets 400 and reaches nothing.
   */
  function ServeEffect(env: Env, r: Request): (e: Effect)
    ensures Status(e.ops) in {StatusOK, StatusBadRequest, StatusMethodNotAllowed, StatusInternalServerError}
    ensures |e.applied| + |e.joins| <= 1
    ensures e.applied != [] ==> HasPrefix(r.path, KeyPath) && r.httpMethod == MethodPost && r.body.Some?
    ensures e.joins != [] ==> !HasPrefix(r.path, KeyPath) && HasPrefix(r.path, JoinPath)
    ensures RouteOf(r.path) == KeyRoute ==> e == KeyRequestEffect(env, r)
    ensures RouteOf(r.path) == JoinRoute ==> e == JoinEffect(env, r)
    ensures RouteOf(r.path) == BadRoute ==> e == Effect([Header(StatusBadRequest)], [], [])
  {
    match RouteOf(r.path)
    case KeyRoute => KeyRequestEffect(env, r)
    case JoinRoute => JoinEffect(env, r)
    case BadRoute => Effect([Header(StatusBadRequest)], [], [])
  }

  /** A GET for a key the state machine does not hold is answered with status 200 and the not-found body. */
  lemma GetMissingKeyAnswers200(env: Env, r: Request)
    requires HasPrefix(r.path, KeyPath) && r.httpMethod == MethodGet
    requires r.path[|KeyPath|..] !in env.stateValue
    ensures Status(ServeEffect(env, r).ops) == StatusOK
    ensures Sent(ServeEffect(env, r).ops) == [Text(NotFoundBody)]
  {
  }

  /** A join without a Peer-Address still adds "" as a voter, and the client is told 400 whatever AddVoter answered. */
  lemma JoinWithoutPeerStillAddsVoter(env: Env, r: Request)
    requires HasPrefix(r.path, JoinPath) && r.peerAddress == ""
    ensures ServeEffect(env, r).joins == [VoterCall("", "")]
    ensures Status(ServeEffect(env, r).ops) == StatusBadRequest
  {
    RoutePrefixesExclusive(r.path);
  }

  // ---------------------------------------------------------------------
  // The response writer, the node and the handlers
  // ---------------------------------------------------------------------

  /** An `http.ResponseWriter` that records every call made on it. */
  class ResponseWriter {
    var ops: seq<WriterOp>

    constructor ()
      ensures ops == []
    {
      ops := [];
    }

    method WriteHeader(code: int)
      modifies this
      ensures ops == old(ops) + [Header(code)]
    {
      ops := ops + [Header(code)];
    }

    method Write(c: Chunk)
      modifies this
      ensures ops == old(ops) + [Body(c)]
    {
      ops := ops + [Body(c)];
    }
  }

  /** `statusNotFound`. */
  method StatusNotFoundReply(w: ResponseWriter)
    modifies w
    ensures w.ops == old(w.ops) + NotFoundOps()
  {
    w.WriteHeader(StatusNotFound);
    w.Write(Text(NotFoundBody));
  }

  /** `statusInternalError`. */
  method StatusInternalErrorReply(w: ResponseWriter)
    modifies w
    ensures w.ops == old(w.ops) + InternalErrorOps()
  {
    w.WriteHeader(StatusInternalServerError);
    w.Write(Text(InternalErrorBody));
  }

  /** The node the HTTP server talks to: its Raft engine records the calls it receives. */
  class Node {
    const env: Env
    var applied: seq<KeyEvent>
    var voterCalls: seq<VoterCall>

    constructor (env: Env)
      ensures applied == [] && voterCalls == []
    {
      this.env := env;
      applied, voterCalls := [], [];
    }

    /** `raftNode.Apply(eventBytes, 5s).Error()` */
    method Apply(ev: KeyEvent) returns (failed: bool)
      modifies this`applied
      ensures applied == old(applied) + [ev] && failed == env.applyFails(ev)
    {
      applied := applied + [ev];
      failed := env.applyFails(ev);
    }

    /** `raftNode.AddVoter(id, addr, 0, 0).Error()` */
    method AddVoter(id: string, addr: string) returns (failed: bool)
      modifies this`voterCalls
      ensures voterCalls == old(voterCalls) + [VoterCall(id, addr)]
      ensures failed == env.addVoterFails(VoterCall(id, addr))
    {
      voterCalls := voterCalls + [VoterCall(id, addr)];
      failed := env.addVoterFails(VoterCall(id, addr));
    }
  }

  /** `httpServer`: the handlers, run against a node. */
  class HttpServer {
    const node: Node

    constructor (node: Node)
      ensures this.node == node
    {
      this.node := node;
    }

    method ServeHTTP(w: ResponseWriter, r: Request)
      modifies w, node
      ensures w.ops == old(w.ops) + ServeEffect(node.env, r).ops
      ensures node.applied == old(node.applied) + ServeEffect(node.env, r).applied
      ensures node.voterCalls == old(node.voterCalls) + ServeEffect(node.env, r).joins
    {
      if HasPrefix(r.path, KeyPath) {
        HandleRequest(w, r);
      } else if HasPrefix(r.path, JoinPath) {
        HandleJoin(w, r);
      } else {
        w.WriteHeader(StatusBadRequest);
      }
    }

    method HandleRequest(w: ResponseWriter, r: Request)
      modifies w, node
      ensures w.ops == old(w.ops) + KeyRequestEffect(node.env, r).ops
      ensures node.applied == old(node.applied) + KeyRequestEffect(node.env, r).applied
      ensures node.voterCalls == old(node.voterCalls) + KeyRequestEffect(node.env, r).joins
    {
      if r.httpMethod == MethodPost {
        HandleKeyPost(w, r);
        return;
      } else if r.httpMethod == MethodGet {
        HandleKeyGet(w, r);
        return;
      }
      w.WriteHeader(StatusMethodNotAllowed);
    }

    method HandleKeyPost(w: ResponseWriter, r: Request)
      modifies w, node
      ensures w.ops == old(w.ops) + KeyPostEffect(node.env, r).ops
      ensures node.applied == old(node.applied) + KeyPostEffect(node.env, r).applied
      ensures node.voterCalls == old(node.voterCalls)
    {
      var key := RemoveKeyPath(r.path);
      if r.body.None? {
        w.WriteHeader(StatusBadRequest);
        return;
      }
      var ev := KeyEvent("set", key, r.body.value);
      if node.env.eventMarshalFails(ev) {
        StatusInternalErrorReply(w);
        return;
      }
      var failed := node.Apply(ev);
      if failed {
        StatusInternalErrorReply(w);
        return;
      }
      w.WriteHeader(StatusOK);
    }

    method HandleKeyGet(w: ResponseWriter, r: Request)
      modifies w
      ensures w.ops == old(w.ops) + KeyGetEffect(node.env, r).ops
    {
      w.WriteHeader(StatusOK);
      var key := RemoveKeyPath(r.path);
      if key !in node.env.stateValue {
        StatusNotFoundReply(w);
        return;
      }
      var resp := GetResponse(node.env.stateValue[key], node.env.leader, "");
      if node.env.responseMarshalFails(resp) {
        StatusInternalErrorReply(w);
        return;
      }
      w.Write(Encoded(resp));
    }

    method HandleJoin(w: ResponseWriter, r: Request)
      modifies w, node
      ensures w.ops == old(w.ops) + JoinEffect(node.env, r).ops
      ensures node.applied == old(node.applied)
      ensures node.voterCalls == old(node.voterCalls) + JoinEffect(node.env, r).joins
    {
      var peerAddress := r.peerAddress;
      if peerAddress == "" {
        w.WriteHeader(StatusBadRequest);
      }
      var failed := node.AddVoter(peerAddress, peerAddress);
      if failed {
        StatusInternalErrorReply(w);
        return;
      }
      w.WriteHeader(StatusOK);
    }
  }
}
