/** What a tunnel server is told about its clients: a session begins on a socket address,
    carries chunks and ends. Both sides of the tunnel are measured against this. */
module Sessions {
  import opened Bytes

  /** Sessions that end together, in an order the code leaves open, end in one event. */
  datatype SessionEvent =
    | Begin(address: u16, client: Uuid)
    | Chunk(address: u16, data: bytes)
    | End(addresses: set<u16>)

  datatype Session = Session(client: Uuid, chunks: seq<bytes>)

  /** The sessions open on each address. */
  type Board = map<u16, Session>

  /** None as soon as an event does not fit the sessions open before it. */
  function TrackEvent(board: Option<Board>, e: SessionEvent): Option<Board> {
    match board
    case None => None
    case Some(b) =>
      match e
      case Begin(a, client) => if a in b then None else Some(b[a := Session(client, [])])
      case Chunk(a, data) =>
        if a in b then Some(b[a := b[a].(chunks := b[a].chunks + [data])]) else None
      case End(addresses) => if addresses <= b.Keys then Some(b - addresses) else None
  }

  function Track(es: seq<SessionEvent>): Option<Board> {
    if es == [] then Some(map[]) else TrackEvent(Track(es[..|es| - 1]), es[|es| - 1])
  }

  lemma TrackOneMore(es: seq<SessionEvent>, e: SessionEvent)
    ensures Track(es + [e]) == TrackEvent(Track(es), e)
  {
    assert (es + [e])[..|es|] == es;
  }

  lemma {:induction false} TrackPrefix(es: seq<SessionEvent>, n: nat)
    requires n <= |es| && Track(es) != None
    ensures Track(es[..n]) != None
    decreases |es| - n
  {
    if n == |es| {
      assert es[..n] == es;
    } else {
      TrackPrefix(es, n + 1);
      assert es[..n + 1][..n] == es[..n];
    }
  }

  /** Sessions that have all ended leave no trace in what follows. */
  lemma {:induction false} TrackResumes(before: seq<SessionEvent>, es: seq<SessionEvent>)
    requires Track(before) == Some(map[])
    ensures Track(before + es) == Track(es)
  {
    if es == [] {
      assert before + es == before;
    } else {
      assert (before + es)[..|before + es| - 1] == before + es[..|es| - 1];
      TrackResumes(before, es[..|es| - 1]);
    }
  }

  // ---------------------------------------------------------------- what tracking means

  predicate Ends(e: SessionEvent, a: u16) {
    e.End? && a in e.addresses
  }

  predicate Begins(e: SessionEvent, a: u16) {
    e.Begin? && e.address == a
  }

  /** A session on a began at i and nothing has ended it, or begun another, before n. */
  predicate OpenSince(es: seq<SessionEvent>, n: nat, a: u16, i: nat)
    requires n <= |es|
  {
    i < n && Begins(es[i], a) && forall k :: i < k < n ==> !Ends(es[k], a) && !Begins(es[k], a)
  }

  ghost predicate OpenAt(es: seq<SessionEvent>, n: nat, a: u16)
    requires n <= |es|
  {
    exists i: nat :: OpenSince(es, n, a, i)
  }

  /** Event n is one the sessions open before it allow: an address is taken only when no
      session is open on it, and chunks and ends only concern open sessions. */
  ghost predicate Fits(es: seq<SessionEvent>, n: nat)
    requires n < |es|
  {
    match es[n]
    case Begin(a, _) => !OpenAt(es, n, a)
    case Chunk(a, _) => OpenAt(es, n, a)
    case End(addresses) => forall a :: a in addresses ==> OpenAt(es, n, a)
  }

  /** The order of events every tunnel server relies on. */
  ghost predicate Disciplined(es: seq<SessionEvent>) {
    forall n: nat :: n < |es| ==> Fits(es, n)
  }

  function Payloads(es: seq<SessionEvent>, a: u16): seq<bytes> {
    if es == [] then [] else
      var init, e := Payloads(es[..|es| - 1], a), es[|es| - 1];
      if e.Chunk? && e.address == a then init + [e.data] else init
  }

  lemma OpenSinceOneMore(es: seq<SessionEvent>, a: u16, i: nat)
    requires es != []
    ensures var n := |es| - 1;
            OpenSince(es, |es|, a, i) <==>
            (if i == n then Begins(es[n], a)
             else OpenSince(es[..n], n, a, i) && !Ends(es[n], a) && !Begins(es[n], a))
  {
    var n := |es| - 1;
    assert forall k :: 0 <= k < n ==> es[..n][k] == es[k];
  }

  /** An address is on the board exactly while a session is open on it. */
  lemma {:induction false} OnBoardExactly(es: seq<SessionEvent>, a: u16)
    requires Track(es) != None
    ensures a in Track(es).value <==> OpenAt(es, |es|, a)
  {
    if es != [] {
      var n := |es| - 1;
      TrackPrefix(es, n);
      OnBoardExactly(es[..n], a);
      forall i: nat ensures OpenSince(es, |es|, a, i) <==>
          if i == n then Begins(es[n], a) else OpenSince(es[..n], n, a, i) && !Ends(es[n], a) && !Begins(es[n], a)
      {
        OpenSinceOneMore(es, a, i);
      }
      if Begins(es[n], a) {
        assert OpenSince(es, |es|, a, n);
      }
    }
  }

  lemma OpenInPrefix(es: seq<SessionEvent>, n: nat, a: u16)
    requires n <= |es|
    ensures OpenAt(es, n, a) <==> OpenAt(es[..n], n, a)
  {
    forall i: nat ensures OpenSince(es, n, a, i) <==> OpenSince(es[..n], n, a, i) {
      assert forall k :: 0 <= k < n ==> es[..n][k] == es[k];
    }
  }

  /** Tracking succeeds exactly on disciplined event sequences. */
  lemma {:induction false} TrackExactly(es: seq<SessionEvent>)
    ensures Track(es) != None <==> Disciplined(es)
  {
    if es != [] {
      var n := |es| - 1;
      var init := es[..n];
      TrackExactly(init);
      forall m: nat | m < n ensures Fits(es, m) <==> Fits(init, m) {
        forall a: u16 ensures OpenAt(es, m, a) <==> OpenAt(init, m, a) {
          OpenInPrefix(es, m, a);
          OpenInPrefix(init, m, a);
          assert init[..m] == es[..m];
        }
      }
      if Track(init) != None {
        forall a: u16 ensures OpenAt(es, n, a) <==> a in Track(init).value {
          OpenInPrefix(es, n, a);
          OnBoardExactly(init, a);
        }
      }
      assert Disciplined(es) <==> Disciplined(init) && Fits(es, n);
    }
  }

  /** What stands on the board for an open session: the client it began with and exactly
      the chunks since then, in order. */
  lemma {:induction false} BoardHolds(es: seq<SessionEvent>, a: u16) returns (i: nat)
    requires Track(es) != None && a in Track(es).value
    ensures OpenSince(es, |es|, a, i)
    ensures Track(es).value[a] == Session(es[i].client, Payloads(es[i..], a))
  {
    var n := |es| - 1;
    TrackPrefix(es, n);
    if Begins(es[n], a) {
      i := n;
      assert es[n..][..0] == [];
    } else {
      i := BoardHolds(es[..n], a);
      OpenSinceOneMore(es, a, i);
      assert es[i..][..|es[i..]| - 1] == es[..n][i..];
    }
  }

  // ---------------------------------------------------------------- whole sessions

  /** The chunks of the session that began at i: those on its address while it was open. */
  function SessionChunks(es: seq<SessionEvent>, i: nat): seq<bytes>
    requires i < |es| && es[i].Begin?
  {
    if i == |es| - 1 then [] else
      var init, e := es[..|es| - 1], es[|es| - 1];
      SessionChunks(init, i) +
      if e.Chunk? && e.address == es[i].address && OpenSince(init, |init|, e.address, i) then [e.data] else []
  }

  lemma SessionOneMore(es: seq<SessionEvent>, i: nat, e: SessionEvent)
    requires i < |es| && es[i].Begin?
    ensures SessionChunks(es + [e], i) ==
            SessionChunks(es, i) +
            if e.Chunk? && e.address == es[i].address && OpenSince(es, |es|, e.address, i) then [e.data] else []
  {
    assert (es + [e])[..|es|] == es;
  }

  /** Events that are no chunks add nothing to any session, and nothing to their own. */
  lemma {:induction false} SessionGoesOn(es: seq<SessionEvent>, es': seq<SessionEvent>, i: nat)
    requires es <= es' && i < |es'| && es'[i].Begin?
    requires forall n :: |es| <= n < |es'| ==> !es'[n].Chunk?
    ensures SessionChunks(es', i) == if i < |es| then SessionChunks(es, i) else []
    decreases |es'|
  {
    if |es'| == |es| {
      assert es' == es;
    } else if i < |es'| - 1 {
      var init := es'[..|es'| - 1];
      SessionGoesOn(es, init, i);
    }
  }

  /** What stands on the board for an open session is that session. */
  lemma {:induction false} BoardHoldsTheOpenSession(es: seq<SessionEvent>, a: u16, i: nat)
    requires Track(es) != None && OpenSince(es, |es|, a, i)
    ensures a in Track(es).value && Track(es).value[a] == Session(es[i].client, SessionChunks(es, i))
  {
    var n := |es| - 1;
    TrackPrefix(es, n);
    if i < n {
      OpenSinceOneMore(es, a, i);
      BoardHoldsTheOpenSession(es[..n], a, i);
    }
  }

  /** Sessions are what they are, whatever came before. */
  lemma {:induction false} SessionShifts(before: seq<SessionEvent>, es: seq<SessionEvent>, i: nat)
    requires i < |es| && es[i].Begin?
    ensures (before + es)[|before| + i] == es[i] && SessionChunks(before + es, |before| + i) == SessionChunks(es, i)
    decreases |es|
  {
    if i < |es| - 1 {
      var init, e := es[..|es| - 1], es[|es| - 1];
      SessionShifts(before, init, i);
      assert before + es == (before + init) + [e];
      SessionOneMore(before + init, |before| + i, e);
      OpenShifts(before, init, es[i].address, i);
    } else {
      assert |before| + i == |before + es| - 1;
    }
  }

  lemma OpenShifts(before: seq<SessionEvent>, es: seq<SessionEvent>, a: u16, i: nat)
    ensures OpenSince(before + es, |before + es|, a, |before| + i) <==> OpenSince(es, |es|, a, i)
  {
    var all := before + es;
    assert forall k :: 0 <= k < |es| ==> all[|before| + k] == es[k];
    if OpenSince(all, |all|, a, |before| + i) {
      forall k | i < k < |es| ensures !Ends(es[k], a) && !Begins(es[k], a) {
        assert all[|before| + k] == es[k];
      }
    }
  }

  // ---------------------------------------------------------------- exactly once

  function BeginCount(es: seq<SessionEvent>, a: u16): nat {
    if es == [] then 0 else
      BeginCount(es[..|es| - 1], a) + if Begins(es[|es| - 1], a) then 1 else 0
  }

  function EndCount(es: seq<SessionEvent>, a: u16): nat {
    if es == [] then 0 else
      EndCount(es[..|es| - 1], a) + if Ends(es[|es| - 1], a) then 1 else 0
  }

  /** Every session that began is either still open or has ended exactly once. */
  lemma {:induction false} EachEndsOnce(es: seq<SessionEvent>, a: u16)
    requires Track(es) != None
    ensures BeginCount(es, a) == EndCount(es, a) + if a in Track(es).value then 1 else 0
  {
    if es != [] {
      TrackPrefix(es, |es| - 1);
      EachEndsOnce(es[..|es| - 1], a);
    }
  }
}
