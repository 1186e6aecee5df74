/** Every session a server is ever told about, also those that have ended: the chunks in it
    are exactly those its client handed over while it was open. */
module RegistrySessions {
  import opened Bytes
  import opened Sessions
  import opened Messages
  import opened Registry
  import opened RegistryInvariant
  import opened RegistryRuns
  import opened RegistryWrites

  /** Event e is a chunk from the client of session i of what socket id was told, and that
      session is open. */
  predicate SpeaksIn(r: State, e: Event, id: ClientId, i: nat) {
    && IsTunnelled(r, e)
    && var c := r.transports[e.id].uuid;
       var story := StoryOf(r, id);
       && r.servers[r.clients[c].server.value].transport == id
       && i < |story| && story[i] == Begin(r.clients[c].address, c)
       && OpenSince(story, |story|, r.clients[c].address, i)
  }

  /** What its client handed over for session i of socket id, as long as it was open. */
  function Spoken(read: bytes -> Request, es: seq<Event>, id: ClientId, i: nat): seq<bytes> {
    if es == [] then [] else
      var r, e := Run(read, es[..|es| - 1]), es[|es| - 1];
      if IsOpening(r, e) && e.id == id then []
      else Spoken(read, es[..|es| - 1], id, i) + if SpeaksIn(r, e, id, i) then [e.data] else []
  }

  /** The chunk of an attached client is the one event its server is told. */
  lemma TunnelledStory(read: bytes -> Request, r: State, e: Event, id: ClientId)
    requires IsTunnelled(r, e)
    ensures var c := r.clients[r.transports[e.id].uuid];
            StoryOf(Step(read, r, e), id) ==
            StoryOf(r, id) + if r.servers[c.server.value].transport == id then [Chunk(c.address, e.data)] else []
  {
    var c := r.clients[r.transports[e.id].uuid];
    TunnelledEntry(read, r, e);
    StoryByEntry(r.log, Sent(r.servers[c.server.value].transport, Tunnel(c.address, e.data)), id);
  }

  lemma TunnelledEntry(read: bytes -> Request, r: State, e: Event)
    requires IsTunnelled(r, e)
    ensures var c := r.clients[r.transports[e.id].uuid];
            Step(read, r, e).log == r.log + [Sent(r.servers[c.server.value].transport, Tunnel(c.address, e.data))]
  {
    var c := r.transports[e.id].uuid;
    assert Step(read, r, e) == TunnelChunk(r, c, r.clients[c].server.value, e.data);
  }

  /** Whoever speaks on an address speaks in the session that is open there. */
  lemma SpeakerOwnsTheSession(r: State, e: Event, id: ClientId, i: nat)
    requires Inv(r) && IsTunnelled(r, e) && i < |StoryOf(r, id)|
    ensures var c := r.clients[r.transports[e.id].uuid];
            SpeaksIn(r, e, id, i) <==>
            r.servers[c.server.value].transport == id && OpenSince(StoryOf(r, id), |StoryOf(r, id)|, c.address, i)
  {
    var c := r.transports[e.id].uuid;
    var u, a, story := r.clients[c].server.value, r.clients[c].address, StoryOf(r, id);
    if r.servers[u].transport == id && OpenSince(story, |story|, a, i) {
      assert Shows(Seen(r.log, id), r, u);
      BoardHoldsTheOpenSession(story, a, i);
      assert IsSettled(r, c);
    }
  }

  /** The chunk of an attached client adds to the session open on its address, and to no
      other of any socket. */
  lemma TunnelledSession(read: bytes -> Request, r: State, e: Event, id: ClientId, i: nat)
    requires Inv(r) && IsTunnelled(r, e) && i < |StoryOf(Step(read, r, e), id)|
    requires StoryOf(Step(read, r, e), id)[i].Begin?
    ensures i < |StoryOf(r, id)| && StoryOf(r, id)[i].Begin?
    ensures SessionChunks(StoryOf(Step(read, r, e), id), i)
            == SessionChunks(StoryOf(r, id), i) + if SpeaksIn(r, e, id, i) then [e.data] else []
  {
    TunnelledStory(read, r, e, id);
    SpeakerOwnsTheSession(r, e, id, i);
    var c := r.clients[r.transports[e.id].uuid];
    OneMoreChunk(StoryOf(r, id), i, r.servers[c.server.value].transport == id, c.address, e.data);
  }

  lemma OneMoreChunk(story: seq<SessionEvent>, i: nat, told: bool, a: u16, data: bytes)
    requires i < |story| && story[i].Begin?
    ensures SessionChunks(story + if told then [Chunk(a, data)] else [], i)
            == SessionChunks(story, i) + if told && OpenSince(story, |story|, a, i) then [data] else []
  {
    SessionOneMore(story, i, Chunk(a, data));
    assert story + [] == story;
  }

  /** Every chunk of an attached client is spoken in some session. */
  lemma EveryChunkIsSpoken(r: State, e: Event) returns (i: nat)
    requires Inv(r) && IsTunnelled(r, e)
    ensures SpeaksIn(r, e, r.servers[r.clients[r.transports[e.id].uuid].server.value].transport, i)
  {
    var c := r.transports[e.id].uuid;
    var u, a := r.clients[c].server.value, r.clients[c].address;
    var story := StoryOf(r, r.servers[u].transport);
    assert Shows(Seen(r.log, r.servers[u].transport), r, u) && IsSettled(r, c);
    OnBoardExactly(story, a);
    i :| OpenSince(story, |story|, a, i);
    SpeakerOwnsTheSession(r, e, r.servers[u].transport, i);
  }

  /** Any other step leaves the sessions there were as they were, and what begins in it is
      empty. */
  lemma OtherSession(read: bytes -> Request, r: State, e: Event, id: ClientId, i: nat)
    requires !IsTunnelled(r, e) && !(IsOpening(r, e) && e.id == id)
    requires i < |StoryOf(Step(read, r, e), id)| && StoryOf(Step(read, r, e), id)[i].Begin?
    ensures i < |StoryOf(r, id)| ==> StoryOf(r, id)[i].Begin?
    ensures SessionChunks(StoryOf(Step(read, r, e), id), i)
            == if i < |StoryOf(r, id)| then SessionChunks(StoryOf(r, id), i) else []
  {
    OtherStory(read, r, e, id);
    SessionGoesOn(StoryOf(r, id), StoryOf(Step(read, r, e), id), i);
  }

  lemma OtherStory(read: bytes -> Request, r: State, e: Event, id: ClientId)
    requires !IsTunnelled(r, e) && !(IsOpening(r, e) && e.id == id)
    ensures GoesOn(StoryOf(r, id), StoryOf(Step(read, r, e), id))
  {
    if IsOpening(r, e) {
      StoryByEntry(r.log, Opened(e.id), id);
    } else {
      StepWrites(read, r, e);
      StoryGoesOn(r.log, Step(read, r, e).log, id, true);
    }
  }

  lemma OpeningForgets(read: bytes -> Request, r: State, e: Event)
    requires IsOpening(r, e)
    ensures StoryOf(Step(read, r, e), e.id) == []
  {
    OutboxOneMore(r.log, Opened(e.id));
  }

  /** Nothing has been said in a session that has not begun. */
  lemma {:induction false} NothingSpokenBefore(read: bytes -> Request, es: seq<Event>, id: ClientId, i: nat)
    requires i >= |StoryOf(Run(read, es), id)|
    ensures Spoken(read, es, id, i) == []
  {
    if es != [] {
      var init, e := es[..|es| - 1], es[|es| - 1];
      var r := Run(read, init);
      if !(IsOpening(r, e) && e.id == id) {
        StoryNeverShrinks(read, r, e, id);
        NothingSpokenBefore(read, init, id, i);
      }
    }
  }

  lemma StoryNeverShrinks(read: bytes -> Request, r: State, e: Event, id: ClientId)
    requires !(IsOpening(r, e) && e.id == id)
    ensures |StoryOf(r, id)| <= |StoryOf(Step(read, r, e), id)|
  {
    if IsTunnelled(r, e) {
      TunnelledStory(read, r, e, id);
    } else {
      OtherStory(read, r, e, id);
    }
  }

  /** Multiplexing, over whole runs and for every session, ended or not: on the socket of a
      server, the chunks from the beginning of a session to its end are exactly those its
      client handed over in that time, in order. */
  lemma {:induction false} EverySessionIsWhatWasSpoken(read: bytes -> Request, es: seq<Event>, id: ClientId, i: nat)
    requires Admissible(read, es) && i < |StoryOf(Run(read, es), id)| && StoryOf(Run(read, es), id)[i].Begin?
    ensures SessionChunks(StoryOf(Run(read, es), id), i) == Spoken(read, es, id, i)
  {
    if es != [] {
      var init, e := es[..|es| - 1], es[|es| - 1];
      var r := Run(read, init);
      AdmissibleButLast(read, es);
      RunKeeps(read, init);
      if IsOpening(r, e) && e.id == id {
        OpeningForgets(read, r, e);
      } else if IsTunnelled(r, e) {
        TunnelledSession(read, r, e, id, i);
        EverySessionIsWhatWasSpoken(read, init, id, i);
      } else {
        OtherSession(read, r, e, id, i);
        if i < |StoryOf(r, id)| {
          EverySessionIsWhatWasSpoken(read, init, id, i);
        } else {
          NothingSpokenBefore(read, init, id, i);
        }
      }
    }
  }
}
