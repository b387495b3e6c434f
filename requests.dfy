/**
  Responding to tag-along requests on the Matches tab (App.tsx:819-826,
  887-899): `act` maps over the incoming list and sets the status of the
  matching request.
 */
module Requests {
  import opened Model

  /** `prev.map(r => r.id === id ? { ...r, status } : r)` */
  function Respond(s: seq<Request>, id: string, d: Decision): (r: seq<Request>)
    ensures |r| == |s|
  {
    if s == [] then []
    else [if s[0].id == id then s[0].(status := StatusOf(d)) else s[0]] + Respond(s[1..], id, d)
  }

  /** The decision the card button offers once a request is decided: the opposite one. */
  function Flip(st: Status): (d: Decision)
    ensures st != Pending ==> StatusOf(d) != st
  {
    if st == Accepted then Decline else Accept
  }

  /** The buttons a request card shows: Decline and Accept while pending,
      a single flip once decided. */
  function Offered(st: Status): (r: set<Decision>)
    ensures forall d :: d in r ==> StatusOf(d) != st
    ensures st == Pending ==> Accept in r && Decline in r
    ensures st != Pending ==> |r| == 1
  {
    if st == Pending then {Decline, Accept} else {Flip(st)}
  }

  /** Responding sets the status of exactly the requests with that id and
      leaves every other field, and every other request, as it was. */
  lemma {:induction false} RespondAt(s: seq<Request>, id: string, d: Decision, i: nat)
    requires i < |s|
    ensures Respond(s, id, d)[i] == if s[i].id == id then s[i].(status := StatusOf(d)) else s[i]
  {
    if i > 0 {
      RespondAt(s[1..], id, d, i - 1);
    }
  }

  /** Responding to an id that no request holds changes nothing. */
  lemma {:induction false} RespondAbsent(s: seq<Request>, id: string, d: Decision)
    requires forall i :: 0 <= i < |s| ==> s[i].id != id
    ensures Respond(s, id, d) == s
  {
    if s != [] {
      assert forall i :: 0 <= i < |s[1..]| ==> s[1..][i] == s[i + 1];
      RespondAbsent(s[1..], id, d);
    }
  }

  /** Last write wins: a second response overrides the first, so accept
      then decline leaves the request declined. */
  lemma {:induction false} RespondLastWins(s: seq<Request>, id: string, d1: Decision, d2: Decision)
    ensures Respond(Respond(s, id, d1), id, d2) == Respond(s, id, d2)
  {
    if s != [] {
      RespondLastWins(s[1..], id, d1, d2);
    }
  }

  /** `pending` is never re-entered: a request is pending afterwards exactly
      when it was pending before and was not the one responded to. */
  lemma RespondNeverPending(s: seq<Request>, id: string, d: Decision)
    ensures forall i :: 0 <= i < |s| ==>
      (Respond(s, id, d)[i].status == Pending <==> s[i].status == Pending && s[i].id != id)
  {
    forall i | 0 <= i < |s|
      ensures Respond(s, id, d)[i].status == Pending <==> s[i].status == Pending && s[i].id != id
    {
      RespondAt(s, id, d, i);
    }
  }

  /** A decided card offers only the flip, and flipping twice comes back. */
  lemma OfferedFlip(st: Status)
    requires st != Pending
    ensures Offered(st) == {Flip(st)} && StatusOf(Flip(StatusOf(Flip(st)))) == st
  {
  }
}
