/** `SessionManager`: the sessions open for each phone number, a map of sets. */
module Sessions {

  /** `phoneToSessions` after `computeIfAbsent(phone, new set).add(sessionId)`. */
  function WithSession(m: map<string, set<string>>, phone: string, sessionId: string): (r: map<string, set<string>>)
    ensures r.Keys == m.Keys + {phone}
    ensures sessionId in r[phone]
    ensures phone in m ==> r[phone] == m[phone] + {sessionId}
    ensures phone !in m ==> r[phone] == {sessionId}
    ensures forall q | q in m && q != phone :: r[q] == m[q]
  {
    m[phone := (if phone in m then m[phone] else {}) + {sessionId}]
  }

  /** Adding the same pair twice leaves the map as adding it once. */
  lemma WithSessionIdempotent(m: map<string, set<string>>, phone: string, sessionId: string)
    ensures WithSession(WithSession(m, phone, sessionId), phone, sessionId) == WithSession(m, phone, sessionId)
  {
  }

  /** Adding pairs for two different phones commutes. */
  lemma WithSessionCommutes(m: map<string, set<string>>, p: string, s: string, q: string, t: string)
    requires p != q
    ensures WithSession(WithSession(m, p, s), q, t) == WithSession(WithSession(m, q, t), p, s)
  {
  }

  class SessionManager {
    var phoneToSessions: map<string, set<string>>

    constructor ()
      ensures phoneToSessions == map[]
    {
      phoneToSessions := map[];
    }

    method AddSession(phoneNumber: string, sessionId: string)
      modifies this
      ensures phoneToSessions == WithSession(old(phoneToSessions), phoneNumber, sessionId)
    {
      var sessions := if phoneNumber in phoneToSessions then phoneToSessions[phoneNumber] else {};
      phoneToSessions := phoneToSessions[phoneNumber := sessions + {sessionId}];
    }
  }
}
