/**
 The provider's leases and one-time tokens. A consumed token leaves a marker until it expires; markers
 that expired are pruned whenever a token is consumed.
 */
module Tokens {
  import opened Model
  import C = Candidate

  datatype Lease = Lease(consumer: string, capabilities: set<string>, store: string, expiresAt: int)

  /** What a token may be used for. */
  datatype Binding = Binding(
    capability: string, identity: string, operation: string, kid: Option<string>, request: string,
    recipient: string, input: string)

  /** A token as it is signed: the claims are canonical, and `tag` stands for the authenticated issuer. */
  datatype Token = Token(tag: string, lease: string, consumer: string, store: string, binding: Binding, expiresAt: int)

  /** `drawn` is history: every lease id ever drawn. */
  datatype State = State(key: string, leases: map<string, Lease>, consumed: map<Token, int>, drawn: set<string>)

  const MAX_LEASE_TTL := 24 * 60 * 60
  const MAX_OPERATION_TTL := 5 * 60

  predicate ValidLease(consumer: string, capabilities: set<string>, store: string, ttl: int) {
    && !C.Blank(consumer) && !C.Blank(store) && 1 <= ttl <= MAX_LEASE_TTL
    && capabilities != {} && forall capability :: capability in capabilities ==> !C.Blank(capability)
  }

  predicate ValidBinding(binding: Binding) {
    && !C.Blank(binding.capability) && !C.Blank(binding.identity) && !C.Blank(binding.operation)
    && !C.Blank(binding.request) && !C.Blank(binding.input)
    && (binding.kid.Some? ==> !C.Blank(binding.kid.value))
  }

  function Acquire(s: State, id: string, consumer: string, capabilities: set<string>, store: string, ttl: int,
                   now: int): State {
    if !ValidLease(consumer, capabilities, store, ttl) || id in s.drawn then s
    else s.(leases := s.leases[id := Lease(consumer, capabilities, store, now + ttl)], drawn := s.drawn + {id})
  }

  function Dispose(s: State, id: string): State {
    s.(leases := s.leases - {id})
  }

  function Min(a: int, b: int): int {
    if a <= b then a else b
  }

  function Issue(s: State, lease: string, binding: Binding, ttl: int, now: int): Option<Token> {
    if !ValidBinding(binding) || !(1 <= ttl <= MAX_OPERATION_TTL) || lease !in s.leases then None
    else
      var parent := s.leases[lease];
      if parent.expiresAt <= now || binding.capability !in parent.capabilities then None
      else Some(Token(s.key, lease, parent.consumer, parent.store, binding, Min(now + ttl, parent.expiresAt)))
  }

  /** The checks before the markers are looked at. */
  predicate Passes(s: State, token: Token, expected: Binding, now: int) {
    && ValidBinding(expected) && token.tag == s.key && token.binding == expected
    && now < token.expiresAt
    && token.lease in s.leases
    && var parent := s.leases[token.lease];
    && now < parent.expiresAt && parent.consumer == token.consumer && parent.store == token.store
    && token.binding.capability in parent.capabilities
  }

  function Pruned(consumed: map<Token, int>, now: int): map<Token, int> {
    map token | token in consumed && consumed[token] > now :: consumed[token]
  }

  predicate Accepts(s: State, token: Token, expected: Binding, now: int) {
    Passes(s, token, expected, now) && token !in Pruned(s.consumed, now)
  }

  /** Markers are pruned and the token is marked, whether or not it was marked already. */
  function Consume(s: State, token: Token, expected: Binding, now: int): State {
    if !Passes(s, token, expected, now) then s
    else s.(consumed := Pruned(s.consumed, now)[token := token.expiresAt])
  }

  // Runs

  datatype Event =
    | AcquireLease(id: string, consumer: string, capabilities: set<string>, store: string, ttl: int, now: int)
    | DisposeLease(id: string)
    | ConsumeToken(token: Token, expected: Binding, now: int)

  function Step(s: State, e: Event): State {
    match e
    case AcquireLease(id, consumer, capabilities, store, ttl, now) =>
      Acquire(s, id, consumer, capabilities, store, ttl, now)
    case DisposeLease(id) => Dispose(s, id)
    case ConsumeToken(token, expected, now) => Consume(s, token, expected, now)
  }

  function Run(s: State, events: seq<Event>): State {
    if events == [] then s else Step(Run(s, events[..|events| - 1]), events[|events| - 1])
  }

  predicate Accepted(s: State, e: Event, token: Token) {
    e.ConsumeToken? && e.token == token && Accepts(s, token, e.expected, e.now)
  }

  /** Markers carry the expiry of their token, and live leases were drawn. */
  predicate Inv(s: State) {
    && (forall token :: token in s.consumed ==> s.consumed[token] == token.expiresAt)
    && (forall id :: id in s.leases ==> id in s.drawn)
  }

  lemma {:induction false} RunKeeps(s: State, events: seq<Event>)
    requires Inv(s)
    ensures Inv(Run(s, events)) && s.drawn <= Run(s, events).drawn && Run(s, events).key == s.key
  {
    if events != [] {
      RunKeeps(s, events[..|events| - 1]);
    }
  }

  // Replay markers

  /** The call read the clock at or past the given time. */
  predicate ReadsPast(e: Event, time: int) {
    e.ConsumeToken? && e.now >= time
  }

  /**
   The call prunes the markers of tokens that expire at the given time: it passed the checks, and it
   read the clock late.
   */
  predicate Prunes(s: State, e: Event, time: int) {
    ReadsPast(e, time) && Passes(s, e.token, e.expected, e.now)
  }

  ghost predicate PrunedWithin(s: State, events: seq<Event>, time: int) {
    exists k :: 0 <= k < |events| && Prunes(Run(s, events[..k]), events[k], time)
  }

  /**
   One call that does not accept the token: its marker is gone afterwards if it was gone before or the
   call prunes it.
   */
  lemma MarkerStep(s: State, e: Event, token: Token)
    requires Inv(s) && !Accepted(s, e, token)
    ensures token !in Step(s, e).consumed <==> token !in s.consumed || Prunes(s, e, token.expiresAt)
  {
    if e.ConsumeToken? && Passes(s, e.token, e.expected, e.now) {
      assert token in s.consumed ==> s.consumed[token] == token.expiresAt;
    }
  }

  lemma PrunedSoFar(s: State, events: seq<Event>, time: int)
    requires events != []
    ensures var front := events[..|events| - 1];
      PrunedWithin(s, events, time)
      <==> PrunedWithin(s, front, time) || Prunes(Run(s, front), events[|events| - 1], time)
  {
    var front := events[..|events| - 1];
    assert forall k :: 0 <= k < |front| ==> events[..k] == front[..k] && events[k] == front[k];
    if PrunedWithin(s, front, time) {
      var k :| 0 <= k < |front| && Prunes(Run(s, front[..k]), front[k], time);
      assert Prunes(Run(s, events[..k]), events[k], time);
    }
    if PrunedWithin(s, events, time) {
      var k :| 0 <= k < |events| && Prunes(Run(s, events[..k]), events[k], time);
      assert k < |front| ==> Prunes(Run(s, front[..k]), front[k], time);
    }
  }

  /** Over a run that does not accept the token, its marker goes exactly when some call prunes it. */
  lemma {:induction false} MarkerGoneIff(s: State, events: seq<Event>, token: Token)
    requires Inv(s) && token in s.consumed && Acceptances(s, events, token) == 0
    ensures token !in Run(s, events).consumed <==> PrunedWithin(s, events, token.expiresAt)
  {
    if events != [] {
      var front := events[..|events| - 1];
      MarkerGoneIff(s, front, token);
      RunKeeps(s, front);
      MarkerStep(Run(s, front), events[|events| - 1], token);
      PrunedSoFar(s, events, token.expiresAt);
    }
  }

  /** While its marker is there, a token is refused. */
  lemma MarkedIsRefused(s: State, e: Event, token: Token)
    requires Inv(s) && token in s.consumed
    ensures !Accepted(s, e, token)
  {
  }

  /**
   Exactly when a token is accepted again, with no assumption about the clock: after an acceptance and
   any run that does not accept it, a call that presents it is accepted if and only if it passes the
   checks and some call in between, itself past the checks, read the clock at or after the expiry.
   */
  lemma AcceptedAgainIff(s: State, first: Event, events: seq<Event>, second: Event, token: Token)
    requires Inv(s) && Accepted(s, first, token) && Acceptances(Step(s, first), events, token) == 0
    requires second.ConsumeToken? && second.token == token
    ensures var after := Run(Step(s, first), events);
      Accepted(after, second, token)
      <==> Passes(after, token, second.expected, second.now) && PrunedWithin(Step(s, first), events, token.expiresAt)
  {
    var marked := Step(s, first);
    RunKeeps(marked, events);
    MarkerGoneIff(marked, events, token);
    if token in Run(marked, events).consumed {
      MarkedIsRefused(Run(marked, events), second, token);
    }
  }

  lemma {:induction false} SomeAcceptance(s: State, events: seq<Event>, token: Token) returns (k: nat)
    requires Acceptances(s, events, token) > 0
    ensures k < |events| && Accepted(Run(s, events[..k]), events[k], token)
  {
    var front := events[..|events| - 1];
    if Accepted(Run(s, front), events[|events| - 1], token) {
      k := |events| - 1;
    } else {
      k := SomeAcceptance(s, front, token);
      assert events[..k] == front[..k];
    }
  }

  /**
   Any second acceptance means that the clock went back: an earlier call past the checks read it at or
   after the token's expiry, and the accepting call reads it before that.
   */
  lemma {:induction false} SecondAcceptanceNeedsClockBack(s: State, first: Event, events: seq<Event>, second: Event,
                                                          token: Token)
    requires Inv(s) && Accepted(s, first, token) && Accepted(Run(Step(s, first), events), second, token)
    ensures second.now < token.expiresAt && PrunedWithin(Step(s, first), events, token.expiresAt)
    decreases |events|
  {
    var marked := Step(s, first);
    if Acceptances(marked, events, token) == 0 {
      AcceptedAgainIff(s, first, events, second, token);
    } else {
      var n := SomeAcceptance(marked, events, token);
      SecondAcceptanceNeedsClockBack(s, first, events[..n], events[n], token);
      PrunedBefore(marked, events, n, token.expiresAt);
    }
  }

  lemma PrunedBefore(s: State, events: seq<Event>, n: nat, time: int)
    requires n <= |events| && PrunedWithin(s, events[..n], time)
    ensures PrunedWithin(s, events, time)
  {
    var k :| 0 <= k < n && Prunes(Run(s, events[..n][..k]), events[..n][k], time);
    assert events[..n][..k] == events[..k] && events[..n][k] == events[k];
  }

  predicate ClockMonotone(events: seq<Event>) {
    forall i, j :: 0 <= i < j < |events| && events[i].ConsumeToken? && events[j].ConsumeToken? ==>
      events[i].now <= events[j].now
  }

  function Acceptances(s: State, events: seq<Event>, token: Token): nat {
    if events == [] then 0
    else
      var front := events[..|events| - 1];
      Acceptances(s, front, token) + if Accepted(Run(s, front), events[|events| - 1], token) then 1 else 0
  }

  /** An accepted token is marked, or the clock has reached its expiry. */
  lemma {:induction false} AcceptedStaysMarked(s: State, events: seq<Event>, token: Token)
    requires Inv(s) && ClockMonotone(events) && Acceptances(s, events, token) > 0
    ensures token in Run(s, events).consumed || exists k :: 0 <= k < |events| && ReadsPast(events[k], token.expiresAt)
  {
    var front, last := events[..|events| - 1], events[|events| - 1];
    RunKeeps(s, front);
    if !Accepted(Run(s, front), last, token) {
      AcceptedStaysMarked(s, front, token);
      if k :| 0 <= k < |front| && ReadsPast(front[k], token.expiresAt) {
        assert ReadsPast(events[k], token.expiresAt);
      } else if token !in Run(s, events).consumed {
        assert ReadsPast(events[|events| - 1], token.expiresAt);
      }
    }
  }

  /** With a clock that does not go back, every token is accepted at most once over a whole run. */
  lemma {:induction false} AcceptedAtMostOnce(s: State, events: seq<Event>, token: Token)
    requires Inv(s) && ClockMonotone(events)
    ensures Acceptances(s, events, token) <= 1
  {
    if events != [] {
      var front, last := events[..|events| - 1], events[|events| - 1];
      AcceptedAtMostOnce(s, front, token);
      if Accepted(Run(s, front), last, token) && Acceptances(s, front, token) > 0 {
        RunKeeps(s, front);
        AcceptedStaysMarked(s, front, token);
        if token in Run(s, front).consumed {
          MarkedIsRefused(Run(s, front), last, token);
        }
      }
    }
  }

  const SIGNING: Binding := Binding("sign", "i", "op", None, "r", "k", "d")

  function NewState(key: string): State {
    State(key, map[], map[], {})
  }

  lemma SigningIsValid()
    ensures ValidBinding(SIGNING) && ValidLease("app", {"sign"}, "store", 100)
  {
    assert !C.IsSpace("sign"[0]) && !C.IsSpace("i"[0]) && !C.IsSpace("op"[0]) && !C.IsSpace("r"[0]);
    assert !C.IsSpace("d"[0]) && !C.IsSpace("app"[0]) && !C.IsSpace("store"[0]);
  }

  lemma AppendedRun(s: State, events: seq<Event>, e: Event, token: Token)
    ensures Run(s, events + [e]) == Step(Run(s, events), e)
    ensures Acceptances(s, events + [e], token)
      == Acceptances(s, events, token) + if Accepted(Run(s, events), e, token) then 1 else 0
  {
    assert (events + [e])[..|events + [e]| - 1] == events;
  }

  /** The two tokens of the run below, issued at the start under one lease of a new provider. */
  function TokenUntil(key: string, expiry: int): Token {
    Token(key, "lease", "app", "store", SIGNING, expiry)
  }

  lemma TokensIssued(key: string, leased: State)
    requires leased == Step(NewState(key), AcquireLease("lease", "app", {"sign"}, "store", 100, 0))
    ensures Issue(leased, "lease", SIGNING, 10, 0) == Some(TokenUntil(key, 10))
    ensures Issue(leased, "lease", SIGNING, 20, 0) == Some(TokenUntil(key, 20))
    ensures leased == State(key, map["lease" := Lease("app", {"sign"}, "store", 100)], map[], {"lease"})
  {
    SigningIsValid();
    assert {} + {"lease"} == {"lease"};
  }

  /**
   When the clock goes back across its expiry, a token is accepted twice. A new provider grants a lease
   and issues two tokens under it; the first is consumed, the second is consumed after the first has
   expired, and then the clock reads an earlier time again.
   */
  lemma ClockBackAcceptsTwice(key: string) returns (events: seq<Event>, token: Token, other: Token)
    ensures |events| == 4 && events[0].AcquireLease? && !ClockMonotone(events)
    ensures var leased := Run(NewState(key), events[..1]);
      Issue(leased, "lease", SIGNING, 10, 0) == Some(token) && Issue(leased, "lease", SIGNING, 20, 0) == Some(other)
    ensures events[1..] == [ConsumeToken(token, SIGNING, 5), ConsumeToken(other, SIGNING, 15),
                            ConsumeToken(token, SIGNING, 5)]
    ensures Acceptances(NewState(key), events, token) == 2
  {
    token, other := TokenUntil(key, 10), TokenUntil(key, 20);
    var acquire := AcquireLease("lease", "app", {"sign"}, "store", 100, 0);
    var first, late := ConsumeToken(token, SIGNING, 5), ConsumeToken(other, SIGNING, 15);
    var s := NewState(key);
    var leased := Step(s, acquire);
    TokensIssued(key, leased);
    SigningIsValid();
    AppendedRun(s, [], acquire, token);
    AppendedRun(s, [acquire], first, token);
    AppendedRun(s, [acquire, first], late, token);
    AppendedRun(s, [acquire, first, late], first, token);
    assert [] + [acquire] == [acquire] && [acquire] + [first] == [acquire, first];
    assert [acquire, first] + [late] == [acquire, first, late];
    events := [acquire, first, late, first];
    assert [acquire, first, late] + [first] == events && events[..1] == [acquire];
    assert token !in Step(Step(leased, first), late).consumed;
    assert events[2].now > events[3].now;
  }

  // Leases

  lemma {:induction false} GoneLeaseStaysGone(s: State, events: seq<Event>, id: string)
    requires id in s.drawn && id !in s.leases
    ensures id in Run(s, events).drawn && id !in Run(s, events).leases
  {
    if events != [] {
      GoneLeaseStaysGone(s, events[..|events| - 1], id);
    }
  }

  /** After its lease is disposed of, no token of it is ever accepted. */
  lemma NothingAfterDisposal(s: State, events: seq<Event>, e: Event, token: Token)
    requires Inv(s) && token.lease in s.drawn
    ensures !Accepted(Run(Step(s, DisposeLease(token.lease)), events), e, token)
  {
    GoneLeaseStaysGone(Step(s, DisposeLease(token.lease)), events, token.lease);
  }

  lemma {:induction false} LeaseNeverChanges(s: State, events: seq<Event>, id: string)
    requires Inv(s) && id in s.leases
    ensures id in Run(s, events).leases ==> Run(s, events).leases[id] == s.leases[id]
  {
    if events != [] {
      var front := events[..|events| - 1];
      LeaseNeverChanges(s, front, id);
      RunKeeps(s, front);
    }
  }

  /** No token is accepted at or after the expiry its lease was acquired with, nor for another consumer or store. */
  lemma NothingAfterLeaseExpiry(s: State, events: seq<Event>, e: Event, token: Token)
    requires Inv(s) && token.lease in s.leases && Accepted(Run(s, events), e, token)
    ensures e.now < s.leases[token.lease].expiresAt && e.now < token.expiresAt
    ensures token.consumer == s.leases[token.lease].consumer && token.store == s.leases[token.lease].store
    ensures token.binding.capability in s.leases[token.lease].capabilities
  {
    LeaseNeverChanges(s, events, token.lease);
  }

  /**
   An issued token never outlives its lease, and is accepted for its binding until it expires, as long
   as the lease is held.
   */
  lemma IssuedTokenIsAccepted(s: State, lease: string, binding: Binding, ttl: int, issued: int, events: seq<Event>,
                              now: int)
    requires Inv(s) && Issue(s, lease, binding, ttl, issued).Some?
    requires var token := Issue(s, lease, binding, ttl, issued).value;
      lease in Run(s, events).leases && now < token.expiresAt && token !in Run(s, events).consumed
    ensures var token := Issue(s, lease, binding, ttl, issued).value;
      && issued < token.expiresAt <= s.leases[lease].expiresAt && token.expiresAt <= issued + MAX_OPERATION_TTL
      && Accepts(Run(s, events), token, binding, now)
  {
    LeaseNeverChanges(s, events, lease);
    RunKeeps(s, events);
  }
}
