// The idempotency middleware: responses are captured while they are sent, stored under the key, and
// replayed to retries. Requests come one after the other and the key table does not fail.
module Idempotency {
  import opened Base

  type Bytes = seq<bv8>

  // ----- Capturing a response -----

  /** What a handler does with its writer. */
  datatype Call = WriteHeader(code: int) | Write(b: Bytes)

  const OK: int := 200
  const BAD_REQUEST: int := 400
  const UNPROCESSABLE: int := 422

  /** net/http: the first call decides the status, and writing first means 200. */
  function StatusOf(calls: seq<Call>): int {
    if calls != [] && calls[0].WriteHeader? then calls[0].code else OK
  }

  function BodyOf(calls: seq<Call>): Bytes {
    if calls == [] then []
    else BodyOf(calls[..|calls| - 1]) + match calls[|calls| - 1] case Write(b) => b case WriteHeader(_) => []
  }

  /** What has gone out on a connection; no status line means 200 when the handler returns. */
  datatype Wire = Wire(status: Option<int>, body: Bytes)

  /** The first status line stays, and a body starts one of its own. */
  function Sent(w: Wire, call: Call): Wire {
    match call
    case WriteHeader(code) => if w.status.Some? then w else w.(status := Some(code))
    case Write(b) => Wire(if w.status.Some? then w.status else Some(OK), w.body + b)
  }

  function SentAll(calls: seq<Call>): Wire {
    if calls == [] then Wire(None, []) else Sent(SentAll(calls[..|calls| - 1]), calls[|calls| - 1])
  }

  /** The connection's own writer. */
  class Connection {
    var status: Option<int>
    var body: Bytes

    constructor ()
      ensures Contents() == Wire(None, [])
    {
      status, body := None, [];
    }

    function Contents(): Wire
      reads this
    {
      Wire(status, body)
    }

    method WriteHeader(code: int)
      modifies this
      ensures Contents() == Sent(old(Contents()), Call.WriteHeader(code))
    {
      if status.None? { status := Some(code); }
    }

    method Write(b: Bytes)
      modifies this
      ensures Contents() == Sent(old(Contents()), Call.Write(b))
    {
      if status.None? { status := Some(OK); }
      body := body + b;
    }
  }

  /** What responseWriter has captured. */
  datatype Capture = Capture(statusCode: int, body: Bytes, wroteHeader: bool)

  const NOTHING: Capture := Capture(OK, [], false)

  function FeedHeader(c: Capture, code: int): Capture {
    if c.wroteHeader then c else c.(statusCode := code, wroteHeader := true)
  }

  function Feed(c: Capture, call: Call): Capture {
    match call
    case WriteHeader(code) => FeedHeader(c, code)
    case Write(b) => FeedHeader(c, OK).(body := c.body + b)
  }

  function FeedAll(calls: seq<Call>): Capture {
    if calls == [] then NOTHING else Feed(FeedAll(calls[..|calls| - 1]), calls[|calls| - 1])
  }

  /** However often the handler writes, and in whatever order, the capture is the response. */
  lemma {:induction false} CaptureIsResponse(calls: seq<Call>)
    ensures FeedAll(calls) == Capture(StatusOf(calls), BodyOf(calls), calls != [])
  {
    if calls != [] {
      var before := calls[..|calls| - 1];
      CaptureIsResponse(before);
      assert before != [] ==> before[0] == calls[0];
    }
  }

  /** The copy and what went out agree, although each goes by rules of its own. */
  lemma {:induction false} CaptureIsSent(calls: seq<Call>)
    ensures var c, w := FeedAll(calls), SentAll(calls);
            c.body == w.body && w.status == if c.wroteHeader then Some(c.statusCode) else None
  {
    if calls != [] {
      CaptureIsSent(calls[..|calls| - 1]);
    }
  }

  /** responseWriter: passes everything on and keeps a copy. */
  class ResponseWriter {
    const conn: Connection
    var statusCode: int
    var body: Bytes
    var wroteHeader: bool

    constructor (conn: Connection)
      requires conn.Contents() == Wire(None, [])
      ensures this.conn == conn && Captured() == NOTHING && InSync()
    {
      this.conn := conn;
      statusCode, body, wroteHeader := OK, [], false;
    }

    function Captured(): Capture
      reads this
    {
      Capture(statusCode, body, wroteHeader)
    }

    /** The copy is what the connection was sent. */
    predicate InSync()
      reads this, conn
    {
      body == conn.body && conn.status == if wroteHeader then Some(statusCode) else None
    }

    method WriteHeader(code: int)
      requires InSync()
      modifies this, conn
      ensures InSync() && Captured() == Feed(old(Captured()), Call.WriteHeader(code))
    {
      if wroteHeader {
        return;
      }
      wroteHeader := true;
      statusCode := code;
      conn.WriteHeader(code);
    }

    method Write(b: Bytes)
      requires InSync()
      modifies this, conn
      ensures InSync() && Captured() == Feed(old(Captured()), Call.Write(b))
    {
      if !wroteHeader {
        WriteHeader(OK);
      }
      body := body + b;
      conn.Write(b);
    }
  }

  // ----- The key table -----

  datatype Record = Record(user: string, hash: string, body: Bytes, status: int)

  /** PRIMARY KEY (key), without the user (migration 000011). */
  type Keys = map<string, Record>

  function Existing(keys: Keys, key: string, user: string): Option<Record> {
    if key in keys && keys[key].user == user then Some(keys[key]) else None
  }

  datatype HttpRequest = HttpRequest(key: string, user: string, body: Bytes)

  datatype Response = Refused(status: int) | Answered(status: int, body: Bytes) | Replayed(status: int, body: Bytes)

  /**
   * What the middleware does not decide itself: the hash of a body, how a JSONB column reads a body
   * back (not at all if it is no JSON), and the handler behind it.
   */
  datatype Env<!App> = Env(
    hash: Bytes -> string,
    jsonb: Bytes -> Option<Bytes>,
    handle: (App, HttpRequest) -> (App, seq<Call>))

  datatype Server<App> = Server(app: App, keys: Keys)

  /** A taken key or a body that is no JSON makes the insert fail, and Wrap ignores that it did. */
  function Saved<App(!new)>(env: Env<App>, keys: Keys, r: HttpRequest, calls: seq<Call>): Keys {
    var body := env.jsonb(BodyOf(calls));
    if r.key in keys || body.None? then keys
    else keys[r.key := Record(r.user, env.hash(r.body), body.value, StatusOf(calls))]
  }

  /** One request. */
  function Serve<App(!new)>(env: Env<App>, s: Server<App>, r: HttpRequest): (Server<App>, Response) {
    if r.key == "" then (s, Refused(BAD_REQUEST))
    else
      match Existing(s.keys, r.key, r.user)
      case Some(rec) =>
        (s, if rec.hash == env.hash(r.body) then Replayed(rec.status, rec.body) else Refused(UNPROCESSABLE))
      case None =>
        var (app, calls) := env.handle(s.app, r);
        (Server(app, Saved(env, s.keys, r, calls)), Answered(StatusOf(calls), BodyOf(calls)))
  }

  /** What the client reads is this response. */
  predicate Reads(w: Wire, resp: Response) {
    match resp
    case Refused(status) => w.status == Some(status)
    case Answered(status, body) => (if w.status.Some? then w.status.value else OK) == status && w.body == body
    case Replayed(status, body) => w == Wire(Some(status), body)
  }

  class Middleware<App(!new)> {
    const env: Env<App>
    var app: App
    var keys: Keys

    constructor (env: Env<App>, app: App)
      ensures this.env == env && this.app == app && keys == map[]
    {
      this.env, this.app, keys := env, app, map[];
    }

    method Create(key: string, rec: Record)
      modifies this`keys
      ensures keys == if key in old(keys) || env.jsonb(rec.body).None? then old(keys)
                      else old(keys)[key := rec.(body := env.jsonb(rec.body).value)]
    {
      var stored := env.jsonb(rec.body);
      if key !in keys && stored.Some? {
        keys := keys[key := rec.(body := stored.value)];
      }
    }

    method Wrap(w: Connection, r: HttpRequest) returns (resp: Response)
      requires w.Contents() == Wire(None, [])
      modifies this, w
      ensures (Server(app, keys), resp) == Serve(env, Server(old(app), old(keys)), r)
      ensures Reads(w.Contents(), resp)
    {
      if r.key == "" {
        w.WriteHeader(BAD_REQUEST);
        return Refused(BAD_REQUEST);
      }
      var hash := env.hash(r.body);
      var existing := Existing(keys, r.key, r.user);
      if existing.Some? {
        if existing.value.hash != hash {
          w.WriteHeader(UNPROCESSABLE);
          return Refused(UNPROCESSABLE);
        }
        w.WriteHeader(existing.value.status);
        w.Write(existing.value.body);
        return Replayed(existing.value.status, existing.value.body);
      }
      var rw := new ResponseWriter(w);
      ghost var calls := ServeHTTP(rw, r);
      CaptureIsResponse(calls);
      Create(r.key, Record(r.user, hash, rw.body, rw.statusCode));
      resp := Answered(if w.status.Some? then w.status.value else OK, w.body);
    }

    /** next.ServeHTTP: whatever calls the handler makes on the capturing writer. */
    method ServeHTTP(rw: ResponseWriter, r: HttpRequest) returns (ghost calls: seq<Call>)
      requires rw.InSync() && rw.Captured() == NOTHING
      modifies this`app, rw, rw.conn
      ensures (app, calls) == env.handle(old(app), r)
      ensures rw.InSync() && rw.Captured() == FeedAll(calls)
    {
      var (after, todo) := env.handle(app, r);
      app := after;
      var i := 0;
      while i < |todo|
        invariant 0 <= i <= |todo|
        invariant rw.InSync() && rw.Captured() == FeedAll(todo[..i])
        modifies rw, rw.conn
      {
        match todo[i] {
          case WriteHeader(code) => rw.WriteHeader(code);
          case Write(b) => rw.Write(b);
        }
        assert todo[..i + 1][..i] == todo[..i];
        i := i + 1;
      }
      assert todo[..i] == todo;
      calls := todo;
    }
  }

  // ----- Streams of requests -----

  function ServeAll<App(!new)>(env: Env<App>, s: Server<App>, rs: seq<HttpRequest>): Server<App> {
    if rs == [] then s
    else Serve(env, ServeAll(env, s, rs[..|rs| - 1]), rs[|rs| - 1]).0
  }

  /** A record is never overwritten. */
  lemma {:induction false} RecordsStay<App(!new)>(env: Env<App>, s: Server<App>, rs: seq<HttpRequest>, key: string)
    requires key in s.keys
    ensures key in ServeAll(env, s, rs).keys && ServeAll(env, s, rs).keys[key] == s.keys[key]
  {
    if rs != [] {
      RecordsStay(env, s, rs[..|rs| - 1], key);
    }
  }

  /**
   * Whatever was served since a response was stored, a later request with that key and user gets
   * the stored response, or 422 for another body, and changes nothing.
   */
  lemma StoredResponseAnswers<App(!new)>(env: Env<App>, s: Server<App>, rs: seq<HttpRequest>, r: HttpRequest)
    requires r.key != "" && Existing(s.keys, r.key, r.user).Some?
    ensures var rec := Existing(s.keys, r.key, r.user).value;
            var at := ServeAll(env, s, rs);
            Serve(env, at, r)
            == (at, if rec.hash == env.hash(r.body) then Replayed(rec.status, rec.body) else Refused(UNPROCESSABLE))
  {
    RecordsStay(env, s, rs, r.key);
  }

  /** The stream without the requests that find a stored response. */
  function WithoutRetries<App(!new)>(env: Env<App>, s: Server<App>, rs: seq<HttpRequest>): seq<HttpRequest> {
    if rs == [] then []
    else
      var n := |rs| - 1;
      var rest := WithoutRetries(env, s, rs[..n]);
      var at := ServeAll(env, s, rs[..n]);
      if rs[n].key != "" && Existing(at.keys, rs[n].key, rs[n].user).Some? then rest else rest + [rs[n]]
  }

  /** Retries are invisible: the application ends as if each of them had never been sent. */
  lemma {:induction false} RetriesAreInvisible<App(!new)>(env: Env<App>, s: Server<App>, rs: seq<HttpRequest>)
    ensures ServeAll(env, s, WithoutRetries(env, s, rs)) == ServeAll(env, s, rs)
  {
    if rs != [] {
      var n := |rs| - 1;
      RetriesAreInvisible(env, s, rs[..n]);
      var rest := WithoutRetries(env, s, rs[..n]);
      assert (rest + [rs[n]])[..|rest|] == rest;
    }
  }

  /**
   * A first request is protected against retries exactly when its response is JSON and nobody else
   * holds the key; otherwise the same request, sent again, reaches the handler again.
   */
  lemma ProtectedIff<App(!new)>(env: Env<App>, s: Server<App>, r: HttpRequest)
    requires r.key != "" && Existing(s.keys, r.key, r.user).None?
    ensures var calls := env.handle(s.app, r).1;
            var s1 := Serve(env, s, r).0;
            && (Existing(s1.keys, r.key, r.user).Some? <==> r.key !in s.keys && env.jsonb(BodyOf(calls)).Some?)
            && (Existing(s1.keys, r.key, r.user).Some? ==>
                  Serve(env, s1, r) == (s1, Replayed(StatusOf(calls), env.jsonb(BodyOf(calls)).value)))
            && (Existing(s1.keys, r.key, r.user).None? ==>
                  Serve(env, s1, r).0.app == env.handle(s1.app, r).0)
  {
  }

  /** Which of its four answers a request gets: 400, 422, the stored response, or the handler's. */
  lemma AnswersIff<App(!new)>(env: Env<App>, s: Server<App>, r: HttpRequest)
    ensures var resp := Serve(env, s, r).1;
            var stored := r.key != "" && r.key in s.keys && s.keys[r.key].user == r.user;
            && (resp == Refused(400) <==> r.key == "")
            && (resp == Refused(422) <==> stored && s.keys[r.key].hash != env.hash(r.body))
            && (resp.Replayed? <==> stored && s.keys[r.key].hash == env.hash(r.body))
            && (resp.Answered? <==> r.key != "" && !stored)
            && (resp.Replayed? ==> resp == Replayed(s.keys[r.key].status, s.keys[r.key].body))
  {
  }

  /** A first request is answered with exactly what its handler sent, and 200 if that was nothing. */
  lemma FirstAnswerIsSent<App(!new)>(env: Env<App>, s: Server<App>, r: HttpRequest)
    requires r.key != "" && Existing(s.keys, r.key, r.user).None?
    ensures var w := SentAll(env.handle(s.app, r).1);
            Serve(env, s, r).1 == Answered(if w.status.Some? then w.status.value else 200, w.body)
  {
    var calls := env.handle(s.app, r).1;
    CaptureIsResponse(calls);
    CaptureIsSent(calls);
  }

  /**
   * A retry is answered as the first request was, whatever was served in between: with the same
   * status, and with the first body as a JSONB column reads it back.
   */
  lemma RetryRepeatsFirst<App(!new)>(env: Env<App>, s: Server<App>, r: HttpRequest, rs: seq<HttpRequest>)
    requires r.key != "" && r.key !in s.keys && env.jsonb(BodyOf(env.handle(s.app, r).1)).Some?
    ensures var (s1, first) := Serve(env, s, r);
            var at := ServeAll(env, s1, rs);
            && first.Answered? && env.jsonb(first.body).Some?
            && Serve(env, at, r) == (at, Replayed(first.status, env.jsonb(first.body).value))
  {
    StoredResponseAnswers(env, Serve(env, s, r).0, rs, r);
  }

  // ----- Unprotected requests -----

  /** A handler that counts its calls and answers with one byte. */
  function Counting(jsonb: Bytes -> Option<Bytes>): Env<int> {
    Env((b: Bytes) => "", jsonb, (n: int, r: HttpRequest) => (n + 1, [Write([0x31])]))
  }

  lemma Twice<App(!new)>(env: Env<App>, s: Server<App>, q: HttpRequest, r: HttpRequest)
    ensures ServeAll(env, s, [q, r]) == Serve(env, Serve(env, s, q).0, r).0
  {
    assert [q, r][..1] == [q] && [q][..0] == [];
    assert ServeAll(env, s, [q]) == Serve(env, s, q).0;
  }

  /** A key another user already holds: the retry runs the handler again. */
  lemma TakenKeyRunsAgain() returns (env: Env<int>, q: HttpRequest, r: HttpRequest)
    ensures q.key == r.key != "" && q.user != r.user
    ensures Existing(Serve(env, Server(0, map[]), q).0.keys, q.key, q.user).Some?
    ensures ServeAll(env, Serve(env, Server(0, map[]), q).0, [r, r]).app == 3
  {
    env := Counting((b: Bytes) => Some(b));
    q, r := HttpRequest("k", "u", []), HttpRequest("k", "other", []);
    assert "u" != "other" by { assert |"u"| != |"other"|; }
    Twice(env, Serve(env, Server(0, map[]), q).0, r, r);
  }

  /** A response that is no JSON: the retry runs the handler again. */
  lemma PlainTextRunsAgain() returns (env: Env<int>, r: HttpRequest)
    ensures r.key != "" && ServeAll(env, Server(0, map[]), [r, r]).app == 2
  {
    env := Counting((b: Bytes) => None);
    r := HttpRequest("k", "u", []);
    Twice(env, Server(0, map[]), r, r);
  }
}
