/** The per-call bookkeeping of the conversation coordinator
    (src/core/conversation_coordinator.py): whether a barge-in was already counted in
    the current TTS gating cycle, how many barge-ins each call has had, and the
    whitelisted conversation-state updates of the sessions in the session store. The
    session store is a map from call id to session; the gating tokens it keeps are not
    part of this model, so the answer of setting or clearing one, and the sessions the
    store holds afterwards, are parameters. */
module Coordinator {

  /** The fields of a call session the coordinator reads or writes. */
  datatype Session = Session(
    callId: string,
    conversationState: string,
    ttsPlaying: bool,
    audioCaptureEnabled: bool)

  /** The conversation states the coordinator accepts. */
  const ConversationStates: set<string> := {"greeting", "listening", "processing"}

  /** Python `d.get(key, 0)`. */
  function Get(d: map<string, nat>, key: string): nat
  {
    if key in d then d[key] else 0
  }

  // ===========================================================================
  // Sums and counts over maps

  /** The sum of a map's values, in any order. */
  ghost function Sum(m: map<string, nat>): nat
    decreases |m.Keys|
  {
    if m == map[] then 0
    else
      var k :| k in m;
      assert (m - {k}).Keys == m.Keys - {k};
      m[k] + Sum(m - {k})
  }

  /** Taking out any one key takes out exactly its value. */
  lemma {:induction false} SumRemove(m: map<string, nat>, k: string)
    requires k in m
    ensures Sum(m) == m[k] + Sum(m - {k})
    decreases |m.Keys|
  {
    var j :| j in m && Sum(m) == m[j] + Sum(m - {j});
    if j != k {
      assert (m - {j}).Keys == m.Keys - {j};
      assert (m - {k}).Keys == m.Keys - {k};
      SumRemove(m - {j}, k);
      SumRemove(m - {k}, j);
      assert m - {j} - {k} == m - {k} - {j};
    }
  }

  /** Setting one key changes the sum by the difference of the new and the old value. */
  lemma SumUpdate(m: map<string, nat>, k: string, v: nat)
    ensures Sum(m[k := v]) == Sum(m) - Get(m, k) + v
  {
    SumRemove(m[k := v], k);
    assert m[k := v] - {k} == m - {k};
    if k in m {
      SumRemove(m, k);
    } else {
      assert m - {k} == m;
    }
  }

  /** Removing one key removes its value from the sum. */
  lemma SumErase(m: map<string, nat>, k: string)
    ensures Sum(m - {k}) == Sum(m) - Get(m, k)
  {
    if k in m {
      SumRemove(m, k);
    } else {
      assert m - {k} == m;
    }
  }

  /** 1 for each session satisfying `p`, 0 for the others. */
  function Indicator(m: map<string, Session>, p: Session -> bool): (r: map<string, nat>)
    ensures r.Keys == m.Keys
    ensures forall k | k in r :: r[k] == (if p(m[k]) then 1 else 0)
  {
    map k | k in m :: if p(m[k]) then 1 else 0
  }

  /** The number of sessions satisfying `p`. */
  ghost function Count(m: map<string, Session>, p: Session -> bool): nat
  {
    Sum(Indicator(m, p))
  }

  /** Taking out one session takes it out of the count. */
  lemma CountRemove(m: map<string, Session>, p: Session -> bool, k: string)
    requires k in m
    ensures Count(m, p) == (if p(m[k]) then 1 else 0) + Count(m - {k}, p)
  {
    SumRemove(Indicator(m, p), k);
    assert Indicator(m, p) - {k} == Indicator(m - {k}, p);
  }

  /** A count is at most the number of sessions. */
  lemma {:induction false} CountBound(m: map<string, Session>, p: Session -> bool)
    ensures Count(m, p) <= |m.Keys|
    decreases |m.Keys|
  {
    if m != map[] {
      var k :| k in m;
      CountRemove(m, p, k);
      assert (m - {k}).Keys == m.Keys - {k};
      CountBound(m - {k}, p);
    }
  }

  predicate Gating(s: Session) { s.ttsPlaying }

  predicate CaptureDisabled(s: Session) { !s.audioCaptureEnabled }

  // ===========================================================================
  // The barge-in ledger: `_barge_in_seen` and `_barge_in_totals`

  /** The two barge-in maps of the coordinator. */
  datatype BargeIns = BargeIns(seen: map<string, bool>, totals: map<string, nat>)
  {
    /** Whether a barge-in was already counted for the call in its current gating cycle. */
    predicate Seen(call: string)
    {
      call in seen && seen[call]
    }

    /** Every call with a total also has a seen flag, and a call whose barge-in was
        counted in this cycle has a positive total. */
    predicate Consistent()
    {
      && totals.Keys <= seen.Keys
      && forall c | c in seen && seen[c] :: c in totals && totals[c] >= 1
    }
  }

  /** `register_call`: a fresh cycle for the call, keeping any total it already has. */
  function Register(b: BargeIns, call: string): (r: BargeIns)
    ensures !r.Seen(call) && call in r.totals && r.totals[call] == Get(b.totals, call)
    ensures forall c | c != call :: (c in r.seen <==> c in b.seen) && (c in r.totals <==> c in b.totals)
    ensures forall c | c != call && c in b.seen :: r.seen[c] == b.seen[c]
    ensures forall c | c != call && c in b.totals :: r.totals[c] == b.totals[c]
    ensures b.Consistent() ==> r.Consistent()
  {
    BargeIns(b.seen[call := false], if call in b.totals then b.totals else b.totals[call := 0])
  }

  /** `unregister_call`: the call leaves both maps. */
  function Unregister(b: BargeIns, call: string): (r: BargeIns)
    ensures call !in r.seen && call !in r.totals
    ensures forall c | c != call :: (c in r.seen <==> c in b.seen) && (c in r.totals <==> c in b.totals)
    ensures forall c | c != call && c in b.seen :: r.seen[c] == b.seen[c]
    ensures forall c | c != call && c in b.totals :: r.totals[c] == b.totals[c]
    ensures b.Consistent() ==> r.Consistent()
  {
    BargeIns(b.seen - {call}, b.totals - {call})
  }

  /** `note_audio_during_tts`: the first audio of a gating cycle counts one barge-in;
      later audio in the same cycle counts nothing. */
  function Note(b: BargeIns, call: string): (r: BargeIns)
    ensures r.Seen(call)
    ensures Get(r.totals, call) == Get(b.totals, call) + (if b.Seen(call) then 0 else 1)
    ensures forall c | c != call :: (c in r.seen <==> c in b.seen) && (c in r.totals <==> c in b.totals)
    ensures forall c | c != call && c in b.seen :: r.seen[c] == b.seen[c]
    ensures forall c | c != call && c in b.totals :: r.totals[c] == b.totals[c]
    ensures b.Consistent() ==> r.Consistent()
  {
    var b1 := if call !in b.seen then BargeIns(b.seen[call := false], if call in b.totals then b.totals else b.totals[call := 0])
              else b;
    if !b1.seen[call] then BargeIns(b1.seen[call := true], b1.totals[call := Get(b1.totals, call) + 1])
    else b1
  }

  /** A successful `on_tts_start` or `on_tts_end`: the call starts a new gating cycle. */
  function Regate(b: BargeIns, call: string): (r: BargeIns)
    ensures !r.Seen(call) && call in r.seen && r.totals == b.totals
    ensures forall c | c != call :: (c in r.seen <==> c in b.seen)
    ensures forall c | c != call && c in b.seen :: r.seen[c] == b.seen[c]
    ensures b.Consistent() ==> r.Consistent()
  {
    BargeIns(b.seen[call := false], b.totals)
  }

  /** Noting audio twice in one cycle is noting it once. */
  lemma NoteOncePerCycle(b: BargeIns, call: string)
    ensures Note(Note(b, call), call) == Note(b, call)
  {
  }

  /** Each noted audio adds one to the barge-in total exactly when the call's cycle had
      not been counted yet, and nothing otherwise. */
  lemma NoteTotal(b: BargeIns, call: string)
    ensures Sum(Note(b, call).totals) == Sum(b.totals) + (if b.Seen(call) then 0 else 1)
  {
    var r := Note(b, call);
    if b.Seen(call) {
      assert r == b;
    } else {
      assert r.totals == b.totals[call := Get(b.totals, call) + 1];
      SumUpdate(b.totals, call, Get(b.totals, call) + 1);
    }
  }

  /** Over a whole cycle (the gating starts, audio is noted any number of times n >= 1)
      the total grows by exactly one. */
  lemma {:induction false} CycleCountsOne(b: BargeIns, call: string, n: nat)
    requires n >= 1
    ensures Sum(NoteTimes(Regate(b, call), call, n).totals) == Sum(b.totals) + 1
    decreases n
  {
    if n == 1 {
      NoteTotal(Regate(b, call), call);
    } else {
      CycleCountsOne(b, call, n - 1);
      var before := NoteTimes(Regate(b, call), call, n - 1);
      NoteTotal(before, call);
    }
  }

  /** Audio noted `n` times in a row. */
  function NoteTimes(b: BargeIns, call: string, n: nat): (r: BargeIns)
    ensures n >= 1 ==> r.Seen(call)
    decreases n
  {
    if n == 0 then b else Note(NoteTimes(b, call, n - 1), call)
  }

  /** Registering keeps the barge-in total; unregistering drops the call's share. */
  lemma RegisterTotals(b: BargeIns, call: string)
    ensures Sum(Register(b, call).totals) == Sum(b.totals)
    ensures Sum(Unregister(b, call).totals) == Sum(b.totals) - Get(b.totals, call)
  {
    if call !in b.totals {
      SumUpdate(b.totals, call, 0);
    }
    SumErase(b.totals, call);
  }

  // ===========================================================================
  // Conversation state

  /** The session store after `update_conversation_state(call, state)`. */
  function StateUpdated(store: map<string, Session>, call: string, state: string): (r: map<string, Session>)
    ensures r.Keys == store.Keys
    ensures forall c | c in store && c != call :: r[c] == store[c]
    ensures call in store ==>
      r[call] == (if state in ConversationStates then store[call].(conversationState := state) else store[call])
  {
    if state !in ConversationStates then store
    else if call !in store then store
    else if store[call].conversationState == state then store
    else store[call := store[call].(conversationState := state)]
  }

  /** Updating the state twice is updating it once, and only whitelisted states are
      ever stored: a store whose states are all accepted keeps that property. */
  lemma StateUpdateIdempotent(store: map<string, Session>, call: string, state: string)
    ensures StateUpdated(StateUpdated(store, call, state), call, state) == StateUpdated(store, call, state)
    ensures (forall c | c in store :: store[c].conversationState in ConversationStates) ==>
      forall c | c in StateUpdated(store, call, state) ::
        StateUpdated(store, call, state)[c].conversationState in ConversationStates
  {
  }

  /** What `get_summary` returns. */
  datatype Summary = Summary(gatingActive: nat, captureDisabled: nat, bargeInTotal: nat)

  // ===========================================================================
  // The coordinator

  class ConversationCoordinator {
    var bargeInSeen: map<string, bool>
    var bargeInTotals: map<string, nat>
    /** The session store's sessions, by call id. */
    var store: map<string, Session>

    /** The barge-in maps as a value. */
    function Ledger(): BargeIns
      reads this
    {
      BargeIns(bargeInSeen, bargeInTotals)
    }

    constructor(sessions: map<string, Session>)
      ensures bargeInSeen == map[] && bargeInTotals == map[] && store == sessions
      ensures Ledger().Consistent()
    {
      bargeInSeen := map[];
      bargeInTotals := map[];
      store := sessions;
    }

    /** Python `register_call`; cancelling the fallback timer and refreshing the
        gauges are not modelled. */
    method RegisterCall(session: Session)
      modifies this
      ensures Ledger() == Register(old(Ledger()), session.callId)
      ensures store == old(store)
    {
      bargeInSeen := bargeInSeen[session.callId := false];
      if session.callId !in bargeInTotals {
        bargeInTotals := bargeInTotals[session.callId := 0];
      }
    }

    /** Python `unregister_call`. */
    method UnregisterCall(callId: string)
      modifies this
      ensures Ledger() == Unregister(old(Ledger()), callId)
      ensures store == old(store)
    {
      bargeInSeen := bargeInSeen - {callId};
      bargeInTotals := bargeInTotals - {callId};
    }

    /** Python `on_tts_start`; `stored` is what the session store's `set_gating_token`
        answers and `sessionsAfter` the sessions it leaves behind. */
    method OnTtsStart(callId: string, stored: bool, sessionsAfter: map<string, Session>) returns (success: bool)
      modifies this
      ensures success == stored
      ensures Ledger() == if stored then Regate(old(Ledger()), callId) else old(Ledger())
      ensures store == sessionsAfter
    {
      store := sessionsAfter;
      success := stored;
      if success {
        bargeInSeen := bargeInSeen[callId := false];
      }
    }

    /** Python `on_tts_end`; `cleared` is what the session store's `clear_gating_token`
        answers and `sessionsAfter` the sessions it leaves behind. */
    method OnTtsEnd(callId: string, cleared: bool, sessionsAfter: map<string, Session>) returns (success: bool)
      modifies this
      ensures success == cleared
      ensures Ledger() == if cleared then Regate(old(Ledger()), callId) else old(Ledger())
      ensures store == sessionsAfter
    {
      store := sessionsAfter;
      success := cleared;
      if success {
        bargeInSeen := bargeInSeen[callId := false];
      }
    }

    /** Python `cancel_tts`: ends the gating as `on_tts_end` does. */
    method CancelTts(callId: string, cleared: bool, sessionsAfter: map<string, Session>)
      modifies this
      ensures Ledger() == if cleared then Regate(old(Ledger()), callId) else old(Ledger())
      ensures store == sessionsAfter
    {
      var _ := OnTtsEnd(callId, cleared, sessionsAfter);
    }

    /** Python `note_audio_during_tts`. */
    method NoteAudioDuringTts(callId: string)
      modifies this
      ensures Ledger() == Note(old(Ledger()), callId)
      ensures store == old(store)
    {
      if callId !in bargeInSeen {
        bargeInSeen := bargeInSeen[callId := false];
        if callId !in bargeInTotals {
          bargeInTotals := bargeInTotals[callId := 0];
        }
      }
      if !bargeInSeen[callId] {
        bargeInTotals := bargeInTotals[callId := Get(bargeInTotals, callId) + 1];
        bargeInSeen := bargeInSeen[callId := true];
      }
    }

    /** Python `update_conversation_state`. */
    method UpdateConversationState(callId: string, state: string)
      modifies this
      ensures store == StateUpdated(old(store), callId, state)
      ensures Ledger() == old(Ledger())
    {
      if state !in ConversationStates {
        return;
      }
      if callId !in store {
        return;
      }
      var session := store[callId];
      if session.conversationState == state {
        return;
      }
      session := session.(conversationState := state);
      store := store[callId := session];
    }

    /** Python `get_summary`. */
    method GetSummary() returns (s: Summary)
      ensures s.gatingActive == Count(store, Gating) <= |store.Keys|
      ensures s.captureDisabled == Count(store, CaptureDisabled) <= |store.Keys|
      ensures s.bargeInTotal == Sum(bargeInTotals)
    {
      var gating := CountSessions(store, Gating);
      var disabled := CountSessions(store, CaptureDisabled);
      var total := SumTotals(bargeInTotals);
      CountBound(store, Gating);
      CountBound(store, CaptureDisabled);
      s := Summary(gating, disabled, total);
    }
  }

  /** `sum(1 for session in sessions if p(session))`. */
  method CountSessions(sessions: map<string, Session>, p: Session -> bool) returns (n: nat)
    ensures n == Count(sessions, p)
  {
    n := 0;
    var rest := sessions;
    while rest != map[]
      invariant n + Count(rest, p) == Count(sessions, p)
      decreases |rest.Keys|
    {
      var k :| k in rest;
      CountRemove(rest, p, k);
      if p(rest[k]) {
        n := n + 1;
      }
      assert (rest - {k}).Keys == rest.Keys - {k};
      rest := rest - {k};
    }
  }

  /** `sum(totals.values())`. */
  method SumTotals(totals: map<string, nat>) returns (n: nat)
    ensures n == Sum(totals)
  {
    n := 0;
    var rest := totals;
    while rest != map[]
      invariant n + Sum(rest) == Sum(totals)
      decreases |rest.Keys|
    {
      var k :| k in rest;
      SumRemove(rest, k);
      n := n + rest[k];
      assert (rest - {k}).Keys == rest.Keys - {k};
      rest := rest - {k};
    }
  }
}
