/** `DomJudgeRunner`, the client of the judging server's REST interface:
    it authenticates every request with a fixed Basic credential, keeps a
    FIFO buffer of balloons fetched but not yet handed out, asks the server
    for more only when that buffer is empty, and acknowledges a delivered
    balloon with a POST. The server is an oracle: the answers it gives to
    the successive requests are fixed in advance. */
module DomJudge {
  import opened Prelude
  import opened Urls
  import Base64

  /** The judging server as seen by the client: the k-th request for the
      balloon list is answered by `batch(k)` (the undelivered balloons in
      response order, or the error the request or the decoding of its JSON
      body ended in), and the k-th acknowledgement by `ack(k)` (whether the
      request could be sent; the HTTP status is never looked at). */
  datatype Server = Server(batch: nat -> Result<seq<Balloon>>, ack: nat -> Result<()>)

  /** An HTTP request the client sends. */
  datatype Request = Get(url: Url) | Post(url: Url)

  /** What one call of get_balloon yields, and the buffer it leaves. */
  datatype Got = Got(result: Result<Option<Balloon>>, buf: seq<Balloon>)

  /** The balloons a call adds to the buffer: the server's batch, when the
      buffer was empty and the server answered with one. */
  function Fetched(buf: seq<Balloon>, reply: Result<seq<Balloon>>): seq<Balloon>
  {
    if buf == [] && reply.Ok? then reply.value else []
  }

  /** The balloon a call hands out, as a sequence of zero or one. */
  function Served(r: Result<Option<Balloon>>): seq<Balloon>
  {
    if r.Ok? && r.value.Some? then [r.value.value] else []
  }

  /** `get_balloon` on a buffer, given what the server would answer if
      asked: refill an empty buffer, then pop its front. */
  function GetStep(buf: seq<Balloon>, reply: Result<seq<Balloon>>): (g: Got)
    ensures Served(g.result) + g.buf == buf + Fetched(buf, reply)
    ensures g.result.Err? <==> buf == [] && reply.Err?
    ensures g.result.Err? ==> g.buf == [] && g.result.error == reply.error
    ensures g.result == Ok(None) <==> buf == [] && reply == Ok([])
  {
    if buf == [] && reply.Err? then Got(Err(reply.error), buf)
    else
      var filled := if buf == [] then buf + reply.value else buf;
      if filled == [] then Got(Ok(None), filled)
      else Got(Ok(Some(filled[0])), filled[1..])
  }

  /** A non-empty buffer is served without asking the server: whatever it
      would have answered, the call returns the old front and keeps the rest
      in order. */
  lemma ServedFromBuffer(buf: seq<Balloon>, r1: Result<seq<Balloon>>, r2: Result<seq<Balloon>>)
    requires buf != []
    ensures GetStep(buf, r1) == GetStep(buf, r2) == Got(Ok(Some(buf[0])), buf[1..])
  {
    assert Served(GetStep(buf, r1).result) + GetStep(buf, r1).buf == buf;
    assert Served(GetStep(buf, r2).result) + GetStep(buf, r2).buf == buf;
  }

  /** Everything the server sent in answer to the requests numbered `lo`
      to `hi - 1`, in order; an error contributes nothing. */
  function Batches(f: nat -> Result<seq<Balloon>>, lo: nat, hi: nat): seq<Balloon>
    requires lo <= hi
    decreases hi
  {
    if lo == hi then []
    else Batches(f, lo, hi - 1) + (if f(hi - 1).Ok? then f(hi - 1).value else [])
  }

  lemma {:induction false} BatchesSplit(f: nat -> Result<seq<Balloon>>, a: nat, b: nat, c: nat)
    requires a <= b <= c
    ensures Batches(f, a, c) == Batches(f, a, b) + Batches(f, b, c)
    decreases c - b
  {
    if b < c {
      BatchesSplit(f, a, b, c - 1);
    }
  }

  /** The bytes of `user:passwd`, the user-pass of section 2 of RFC 7617. */
  function Credentials(user: seq<Base64.byte>, passwd: seq<Base64.byte>): seq<Base64.byte>
  {
    user + [':' as int] + passwd
  }

  /** The Authorization header value sent with every request. */
  function Authorization(user: seq<Base64.byte>, passwd: seq<Base64.byte>): (r: string)
    ensures |r| == 6 + 4 * ((|user| + |passwd| + 3) / 3)
    ensures r[..6] == "Basic "
    ensures forall i :: 0 <= i < |r| ==> ' ' <= r[i] <= '~'
  {
    var enc := Base64.Encode(Credentials(user, passwd));
    Base64.EncodeShape(Credentials(user, passwd));
    forall i | 0 <= i < |enc| ensures ' ' <= enc[i] <= '~' {
      assert enc[i] == '=' || Base64.InAlphabet(enc[i]);
    }
    "Basic " + enc
  }

  /** The server recovers the credentials from the header value. */
  lemma AuthorizationDecodes(user: seq<Base64.byte>, passwd: seq<Base64.byte>)
    ensures Base64.Decode(Authorization(user, passwd)[6..]) == Some(Credentials(user, passwd))
  {
    var r := Authorization(user, passwd);
    assert r[6..] == Base64.Encode(Credentials(user, passwd));
    Base64.DecodeEncode(Credentials(user, passwd));
  }

  /** Cutting the decoded credentials at the first colon, as section 2 of
      RFC 7617 has the server do, gives back the user and the password when
      the user name holds no colon (the password may). */
  lemma CredentialsSplit(user: seq<Base64.byte>, passwd: seq<Base64.byte>)
    requires ':' as int !in user
    ensures var c := Credentials(user, passwd);
      var i := FirstIndex(c, ':' as int);
      c[..i] == user && c[i + 1..] == passwd
  {
    var c := Credentials(user, passwd);
    assert c[|user|] == ':' as int;
    assert c[..|user|] == user;
    var i := FirstIndex(c, ':' as int);
    assert i == |user|;
  }

  class Runner {
    const auth: string
    const balloonApi: Url
    const server: Server
    /** Balloons fetched and not yet handed out, front first. */
    var buf: seq<Balloon>
    /** Requests for the balloon list and acknowledgements sent so far. */
    var gets: nat
    var posts: nat
    /** Every request sent, in order. */
    var log: seq<Request>
    /** Every balloon handed out so far. */
    ghost var handed: seq<Balloon>

    /** What was handed out, followed by what is buffered, is what the
        server sent. */
    ghost predicate Valid()
      reads this
    {
      handed + buf == Batches(server.batch, 0, gets)
    }

    /** `DomJudgeRunner::new`: the header value and the balloon list URL are
        computed once; the buffer starts empty and nothing is sent. */
    constructor (url: Url, cid: string, user: seq<Base64.byte>, passwd: seq<Base64.byte>, server: Server)
      ensures Valid()
      ensures auth == Authorization(user, passwd)
      ensures balloonApi == BalloonApi(url, cid)
      ensures this.server == server
      ensures buf == [] && gets == 0 && posts == 0 && log == [] && handed == []
    {
      auth := Authorization(user, passwd);
      balloonApi := BalloonApi(url, cid);
      this.server := server;
      buf := [];
      gets, posts := 0, 0;
      log := [];
      handed := [];
    }

    /** `get_balloon`: one GET of the balloon list when the buffer is empty,
        none otherwise; then the front of the buffer, if any. */
    method GetBalloon() returns (r: Result<Option<Balloon>>)
      requires Valid()
      modifies this
      ensures Valid()
      ensures var g := GetStep(old(buf), server.batch(old(gets)));
        r == g.result && buf == g.buf
      ensures old(buf) == [] ==> gets == old(gets) + 1 && log == old(log) + [Get(balloonApi)]
      ensures old(buf) != [] ==> gets == old(gets) && log == old(log)
      ensures posts == old(posts)
      ensures handed == old(handed) + Served(r)
    {
      if buf == [] {
        var reply := server.batch(gets);
        log := log + [Get(balloonApi)];
        assert Batches(server.batch, 0, gets + 1) == handed + Fetched(buf, reply);
        gets := gets + 1;
        match reply {
          case Err(e) =>
            return Err(e);
          case Ok(items) =>
            buf := buf + items;
        }
      }
      assert Valid();
      if buf == [] {
        r := Ok(None);
      } else {
        r := Ok(Some(buf[0]));
        Assoc(handed, [buf[0]], buf[1..]);
        assert [buf[0]] + buf[1..] == buf;
        handed := handed + [buf[0]];
        buf := buf[1..];
      }
    }

    /** `done_balloon`: one POST to the balloon's acknowledgement URL; it
        succeeds whenever the request could be sent. */
    method DoneBalloon(id: nat) returns (r: Result<()>)
      requires Valid()
      modifies this
      ensures Valid()
      ensures r == server.ack(old(posts))
      ensures posts == old(posts) + 1 && log == old(log) + [Post(AckUrl(balloonApi, id))]
      ensures buf == old(buf) && gets == old(gets) && handed == old(handed)
    {
      var url := AckUrl(balloonApi, id);
      log := log + [Post(url)];
      r := server.ack(posts);
      posts := posts + 1;
    }
  }
}
