/** The HTTP session of the two async clients: none yet, open, or closed.
    Sessions are told apart by an identity number; the client hands out a
    fresh number whenever it creates one. */
module Session {

  datatype SessionState = NoSession | Open(id: nat) | Closed(id: nat)

  /** `_get_session`: reuse an open session, otherwise create one with the
      identity `next`. Returns the new state and the session handed out. */
  function Acquire(s: SessionState, next: nat): (r: (SessionState, nat))
    ensures r.0 == Open(r.1)
    ensures s.Open? ==> r.1 == s.id
    ensures !s.Open? ==> r.1 == next
  {
    if s.Open? then (s, s.id) else (Open(next), next)
  }

  /** `close`: only an open session is closed; anything else is left alone. */
  function CloseSession(s: SessionState): (r: SessionState)
    ensures !r.Open?
    ensures s.Open? ==> r == Closed(s.id)
    ensures !s.Open? ==> r == s
  {
    if s.Open? then Closed(s.id) else s
  }

  /** How many sessions `_get_session` creates from state `s`: one exactly
      when there is no open session. */
  function Created(s: SessionState): (n: nat)
    ensures n <= 1
    ensures n == 0 <==> s.Open?
  {
    if s.Open? then 0 else 1
  }

  /** Asking twice hands out the same session and creates nothing the second time. */
  lemma AcquireReuses(s: SessionState, next: nat, other: nat)
    ensures var (s1, id1) := Acquire(s, next);
      Acquire(s1, other) == (s1, id1) && Created(s1) == 0
  {
  }

  /** Closing is idempotent. */
  lemma CloseIdempotent(s: SessionState)
    ensures CloseSession(CloseSession(s)) == CloseSession(s)
  {
  }

  /** After a close the next request gets a new session, never the closed one. */
  lemma AcquireAfterClose(s: SessionState, next: nat)
    requires s.Open? && next != s.id
    ensures Acquire(CloseSession(s), next).1 != s.id
    ensures Created(CloseSession(s)) == 1
  {
  }
}
