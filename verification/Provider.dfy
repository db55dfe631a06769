/** The provider's authority as the object it is: leases and markers updated in place under its lock. */
module Provider {
  import opened Model
  import T = Tokens

  class ProviderAuthorization {
    const key: string
    var leases: map<string, T.Lease>
    var consumed: map<T.Token, int>
    /** Every lease id ever drawn. */
    ghost var drawn: set<string>

    ghost function View(): T.State
      reads this
    {
      T.State(key, leases, consumed, drawn)
    }

    ghost predicate Valid()
      reads this
    {
      T.Inv(View())
    }

    constructor (key: string)
      ensures Valid() && View() == T.State(key, map[], map[], {})
    {
      this.key := key;
      leases, consumed, drawn := map[], map[], {};
    }

    /** `id` is freshly drawn. */
    method AcquireLease(id: string, consumer: string, capabilities: set<string>, store: string, ttl: int,
                        now: int) returns (ok: bool)
      requires Valid() && id !in drawn
      modifies this
      ensures Valid() && View() == T.Step(old(View()), T.AcquireLease(id, consumer, capabilities, store, ttl, now))
      ensures ok <==> id in leases
    {
      ok := T.ValidLease(consumer, capabilities, store, ttl);
      if ok {
        leases := leases[id := T.Lease(consumer, capabilities, store, now + ttl)];
        drawn := drawn + {id};
      }
    }

    method DisposeLease(id: string) returns (ok: bool)
      requires Valid()
      modifies this
      ensures Valid() && View() == T.Step(old(View()), T.DisposeLease(id))
      ensures ok <==> id in old(leases)
    {
      ok := id in leases;
      leases := leases - {id};
    }

    method IssueOneTime(lease: string, binding: T.Binding, ttl: int, now: int) returns (token: Option<T.Token>)
      ensures token == T.Issue(View(), lease, binding, ttl, now)
    {
      if !T.ValidBinding(binding) || !(1 <= ttl <= T.MAX_OPERATION_TTL) || lease !in leases {
        return None;
      }
      var parent := leases[lease];
      if parent.expiresAt <= now || binding.capability !in parent.capabilities {
        return None;
      }
      token := Some(T.Token(key, lease, parent.consumer, parent.store, binding, T.Min(now + ttl, parent.expiresAt)));
    }

    /** Consuming prunes the markers that expired, then marks the token; it is accepted if the mark is new. */
    method ConsumeForOperation(token: T.Token, expected: T.Binding, now: int) returns (accepted: bool)
      requires Valid()
      modifies this`consumed
      ensures Valid() && View() == T.Step(old(View()), T.ConsumeToken(token, expected, now))
      ensures accepted <==> T.Accepted(old(View()), T.ConsumeToken(token, expected, now), token)
    {
      if !T.ValidBinding(expected) || token.tag != key || token.binding != expected || token.expiresAt <= now {
        return false;
      }
      if token.lease !in leases {
        return false;
      }
      var parent := leases[token.lease];
      if parent.expiresAt <= now || parent.consumer != token.consumer || parent.store != token.store
         || token.binding.capability !in parent.capabilities
      {
        return false;
      }
      consumed := map marked | marked in consumed && consumed[marked] > now :: consumed[marked];
      accepted := token !in consumed;
      consumed := consumed[token := token.expiresAt];
    }
  }
}
