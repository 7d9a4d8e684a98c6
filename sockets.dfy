/**
 * The server's set of live sockets (`wss.clients`) and the fan-out loops over
 * it. The set iterates in insertion order, so it is kept as a sequence without
 * duplicates. A `send` call is recorded as a pair of the socket and the
 * object it serialised.
 */
module Sockets {
  import opened Envelopes

  /** An accepted connection's socket. Each connection gets a new one. */
  type Socket = nat

  /** One `socket.send(JSON.stringify(e))` call. */
  type Send = (Socket, Envelope)

  predicate Distinct(cs: seq<Socket>) {
    forall i, j :: 0 <= i < j < |cs| ==> cs[i] != cs[j]
  }

  /** `set.delete(s)`: the sockets other than `s`, in their order. */
  function Remove(cs: seq<Socket>, s: Socket): (r: seq<Socket>)
    ensures forall x :: x in r <==> x in cs && x != s
    ensures |r| <= |cs|
  {
    if cs == [] then []
    else if cs[0] == s then Remove(cs[1..], s)
    else [cs[0]] + Remove(cs[1..], s)
  }

  lemma {:induction false} RemoveKeepsDistinct(cs: seq<Socket>, s: Socket)
    requires Distinct(cs)
    ensures Distinct(Remove(cs, s))
  {
    if cs != [] {
      assert Distinct(cs[1..]);
      RemoveKeepsDistinct(cs[1..], s);
      var rest := Remove(cs[1..], s);
      if cs[0] != s {
        assert cs[0] !in cs[1..];
        forall i, j | 0 <= i < j < |[cs[0]] + rest| ensures ([cs[0]] + rest)[i] != ([cs[0]] + rest)[j] {
          if i == 0 {
            assert ([cs[0]] + rest)[j] == rest[j - 1];
          }
        }
      }
    }
  }

  /** `cs.forEach(c => c.send(e))`. */
  function SendAll(cs: seq<Socket>, e: Envelope): seq<Send> {
    if cs == [] then [] else [(cs[0], e)] + SendAll(cs[1..], e)
  }

  /** `cs.forEach(c => { if (c.readyState === OPEN) c.send(e) })`. */
  function SendOpen(cs: seq<Socket>, open: set<Socket>, e: Envelope): seq<Send> {
    if cs == [] then []
    else (if cs[0] in open then [(cs[0], e)] else []) + SendOpen(cs[1..], open, e)
  }

  /** The sockets of `cs` that are open, in order. */
  function OpenOnly(cs: seq<Socket>, open: set<Socket>): seq<Socket> {
    if cs == [] then []
    else (if cs[0] in open then [cs[0]] else []) + OpenOnly(cs[1..], open)
  }

  /** The recipients of a run of sends, in order. */
  function Recipients(out: seq<Send>): (r: seq<Socket>)
    ensures |r| == |out|
    ensures forall i :: 0 <= i < |out| ==> r[i] == out[i].0
  {
    if out == [] then [] else [out[0].0] + Recipients(out[1..])
  }

  /** How many of the sends go to `s`. */
  function Count(out: seq<Send>, s: Socket): nat {
    if out == [] then 0 else (if out[0].0 == s then 1 else 0) + Count(out[1..], s)
  }

  lemma {:induction false} CountAppend(a: seq<Send>, b: seq<Send>, s: Socket)
    ensures Count(a + b, s) == Count(a, s) + Count(b, s)
  {
    if a == [] {
      assert a + b == b;
    } else {
      assert (a + b)[1..] == a[1..] + b;
      CountAppend(a[1..], b, s);
    }
  }

  /** Appending one socket appends one send: the step of the fan-out loop. */
  lemma {:induction false} SendAllSnoc(cs: seq<Socket>, c: Socket, e: Envelope)
    ensures SendAll(cs + [c], e) == SendAll(cs, e) + [(c, e)]
  {
    if cs != [] {
      assert (cs + [c])[1..] == cs[1..] + [c];
      SendAllSnoc(cs[1..], c, e);
    }
  }

  lemma {:induction false} SendOpenSnoc(cs: seq<Socket>, open: set<Socket>, c: Socket, e: Envelope)
    ensures SendOpen(cs + [c], open, e)
         == SendOpen(cs, open, e) + (if c in open then [(c, e)] else [])
  {
    if cs != [] {
      assert (cs + [c])[1..] == cs[1..] + [c];
      SendOpenSnoc(cs[1..], open, c, e);
    }
  }

  /** Fan-out to all sends `e` once to each socket, in the set's order. */
  lemma {:induction false} SendAllShape(cs: seq<Socket>, e: Envelope)
    ensures |SendAll(cs, e)| == |cs|
    ensures forall i :: 0 <= i < |cs| ==> SendAll(cs, e)[i] == (cs[i], e)
    ensures Recipients(SendAll(cs, e)) == cs
  {
    if cs != [] {
      SendAllShape(cs[1..], e);
    }
  }

  /** Each live socket receives exactly one copy; no other socket receives any. */
  lemma {:induction false} CountSendAll(cs: seq<Socket>, e: Envelope, s: Socket)
    requires Distinct(cs)
    ensures Count(SendAll(cs, e), s) == if s in cs then 1 else 0
  {
    if cs != [] {
      assert Distinct(cs[1..]);
      CountSendAll(cs[1..], e, s);
      assert s == cs[0] ==> s !in cs[1..];
    }
  }

  /** Everything the fan-out to all promises, in one place. */
  lemma FanOutToAll(cs: seq<Socket>, e: Envelope)
    requires Distinct(cs)
    ensures Recipients(SendAll(cs, e)) == cs
    ensures forall c :: Count(SendAll(cs, e), c) == if c in cs then 1 else 0
    ensures forall i :: 0 <= i < |SendAll(cs, e)| ==> SendAll(cs, e)[i].1 == e
  {
    SendAllShape(cs, e);
    forall c ensures Count(SendAll(cs, e), c) == if c in cs then 1 else 0 {
      CountSendAll(cs, e, c);
    }
  }

  /** The OPEN-filtered fan-out sends `e` to exactly the open sockets, in order. */
  lemma {:induction false} SendOpenShape(cs: seq<Socket>, open: set<Socket>, e: Envelope)
    ensures Recipients(SendOpen(cs, open, e)) == OpenOnly(cs, open)
    ensures forall i :: 0 <= i < |SendOpen(cs, open, e)| ==> SendOpen(cs, open, e)[i].1 == e
    ensures forall x :: x in OpenOnly(cs, open) <==> x in cs && x in open
  {
    if cs != [] {
      SendOpenShape(cs[1..], open, e);
    }
  }

  lemma {:induction false} CountSendOpen(cs: seq<Socket>, open: set<Socket>, e: Envelope, s: Socket)
    requires Distinct(cs)
    ensures Count(SendOpen(cs, open, e), s) == if s in cs && s in open then 1 else 0
  {
    if cs != [] {
      assert Distinct(cs[1..]);
      CountSendOpen(cs[1..], open, e, s);
      assert s == cs[0] ==> s !in cs[1..];
      var head: seq<Send> := if cs[0] in open then [(cs[0], e)] else [];
      CountAppend(head, SendOpen(cs[1..], open, e), s);
      assert Count(head, s) == if cs[0] == s && cs[0] in open then 1 else 0;
    }
  }

  /** Everything the OPEN-filtered fan-out promises, in one place. */
  lemma FanOutToOpen(cs: seq<Socket>, open: set<Socket>, e: Envelope)
    requires Distinct(cs)
    ensures Recipients(SendOpen(cs, open, e)) == OpenOnly(cs, open)
    ensures forall c :: Count(SendOpen(cs, open, e), c) == if c in cs && c in open then 1 else 0
    ensures forall i :: 0 <= i < |SendOpen(cs, open, e)| ==> SendOpen(cs, open, e)[i].1 == e
  {
    SendOpenShape(cs, open, e);
    forall c ensures Count(SendOpen(cs, open, e), c) == if c in cs && c in open then 1 else 0 {
      CountSendOpen(cs, open, e, c);
    }
  }

  /** `cs.forEach(c => c.send(e))`, appending each send to `out`. */
  method SendEach(out: seq<Send>, cs: seq<Socket>, e: Envelope) returns (r: seq<Send>)
    ensures r == out + SendAll(cs, e)
  {
    r := out;
    var i := 0;
    while i < |cs|
      invariant 0 <= i <= |cs|
      invariant r == out + SendAll(cs[..i], e)
    {
      SendAllSnoc(cs[..i], cs[i], e);
      assert cs[..i + 1] == cs[..i] + [cs[i]];
      r := r + [(cs[i], e)];
      i := i + 1;
    }
    assert cs[..|cs|] == cs;
  }

  /** `cs.forEach(c => { if (c.readyState === OPEN) c.send(e) })`. */
  method SendEachOpen(out: seq<Send>, cs: seq<Socket>, open: set<Socket>, e: Envelope) returns (r: seq<Send>)
    ensures r == out + SendOpen(cs, open, e)
  {
    r := out;
    var i := 0;
    while i < |cs|
      invariant 0 <= i <= |cs|
      invariant r == out + SendOpen(cs[..i], open, e)
    {
      SendOpenSnoc(cs[..i], open, cs[i], e);
      assert cs[..i + 1] == cs[..i] + [cs[i]];
      if cs[i] in open {
        r := r + [(cs[i], e)];
      }
      i := i + 1;
    }
    assert cs[..|cs|] == cs;
  }
}
