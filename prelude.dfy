/** Values shared by the balloon client: the optional value, the error and
    result types of the client, the balloon record the judging server sends
    and the commands the operator console sends to the dispatch loop. */
module Prelude {

  datatype Option<+T> = None | Some(value: T)

  /** The client's one error kind: an HTTP exchange that failed (the request
      could not be sent, or the response body was not a list of balloons).
      The transport library's own error value is kept as opaque text. */
  datatype Error = HttpError(detail: string)

  datatype Result<+T> = Ok(value: T) | Err(error: Error)

  /** One balloon notification as the server reports it. `total` maps award
      category names to values that nothing downstream reads; `balloonid`
      is used only to acknowledge the balloon. */
  datatype Balloon = Balloon(
    problem: string,
    team: string,
    location: Option<string>,
    color: string,
    total: map<string, string>,
    awards: string,
    balloonid: nat)

  /** What the console asks of the dispatch loop. */
  datatype Command = Pause | Resume

  /** The identifiers of a sequence of balloons, in order. */
  function Ids(bs: seq<Balloon>): (r: seq<nat>)
    ensures |r| == |bs|
    ensures forall i :: 0 <= i < |bs| ==> r[i] == bs[i].balloonid
  {
    if bs == [] then [] else [bs[0].balloonid] + Ids(bs[1..])
  }

  lemma IdsAppend(a: seq<Balloon>, b: seq<Balloon>)
    ensures Ids(a + b) == Ids(a) + Ids(b)
  {
    assert |Ids(a + b)| == |Ids(a) + Ids(b)|;
    forall i | 0 <= i < |a + b|
      ensures Ids(a + b)[i] == (Ids(a) + Ids(b))[i]
    {
      if i < |a| { assert (a + b)[i] == a[i]; } else { assert (a + b)[i] == b[i - |a|]; }
    }
  }

  /** Index of the first `x` in `s`. */
  function FirstIndex<T(==)>(s: seq<T>, x: T): (i: nat)
    requires x in s
    ensures i < |s| && s[i] == x && x !in s[..i]
  {
    if s[0] == x then 0
    else
      var k := FirstIndex(s[1..], x);
      assert s[1..][..k] == s[1..k + 1];
      k + 1
  }

  /** The first `x` in `a + [x] + b` is the one after `a`, when `a` holds
      none. */
  lemma FirstIndexAfter<T>(a: seq<T>, x: T, b: seq<T>)
    requires x !in a
    ensures x in a + [x] + b && FirstIndex(a + [x] + b, x) == |a|
  {
    var s := a + [x] + b;
    assert s[|a|] == x;
    assert s[..|a|] == a;
  }

  lemma Assoc<T>(a: seq<T>, b: seq<T>, c: seq<T>)
    ensures (a + b) + c == a + (b + c)
  {
  }

  /** No identifier occurs twice. */
  predicate Distinct(s: seq<nat>)
  {
    forall i, j :: 0 <= i < j < |s| ==> s[i] != s[j]
  }
}
