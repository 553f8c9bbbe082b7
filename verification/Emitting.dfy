/** The outbound funnel under concurrency: claim the key, send with retries, release it on failure. */
module Emitting {
  import opened Wrappers

  const OP_RETRIES := 2

  datatype Kind = Message | Question | Notice
  datatype Key = Key(chat: string, kind: Kind, token: string)

  // ------------------------------------------------------------------ the two locked sections

  function Claimed(emitted: set<Key>, key: Key): (set<Key>, bool) {
    if key in emitted then (emitted, false) else (emitted + {key}, true)
  }

  function Released(emitted: set<Key>, key: Key): set<Key> {
    emitted - {key}
  }

  // ------------------------------------------------------------------ threads

  /** Where one call of emit is: about to claim, between transport attempts, about to release, over. */
  datatype Pc =
    | Ready(key: Option<Key>)
    | Sending(key: Option<Key>, failures: nat)
    | Releasing(held: Key)
    | Over(outcome: Outcome)

  datatype Outcome = Deduped | Won | Lost

  datatype State = State(emitted: set<Key>, threads: map<nat, Pc>, wins: seq<Key>)

  datatype Action =
    | Call(t: nat, key: Option<Key>)
    | Claim(t: nat)
    | Attempt(t: nat, ok: bool)
    | Release(t: nat)

  const INITIAL := State({}, map[], [])

  function To(s: State, t: nat, pc: Pc): State {
    s.(threads := s.threads[t := pc])
  }

  /** One atomic step of one thread; an action its thread is not ready for changes nothing. */
  function Do(s: State, a: Action): State {
    match a
    case Call(t, key) => if t in s.threads then s else To(s, t, Ready(key))
    case Claim(t) =>
      if t !in s.threads || !s.threads[t].Ready? then s
      else
        (match s.threads[t].key
         case None => To(s, t, Sending(None, 0))
         case Some(k) =>
           var (emitted, isNew) := Claimed(s.emitted, k);
           if isNew then To(s, t, Sending(Some(k), 0)).(emitted := emitted) else To(s, t, Over(Deduped)))
    case Attempt(t, ok) =>
      if t !in s.threads || !s.threads[t].Sending? then s
      else
        var Sending(key, failures) := s.threads[t];
        if ok then
          To(s, t, Over(Won)).(wins := if key.Some? then s.wins + [key.value] else s.wins)
        else if failures < OP_RETRIES then To(s, t, Sending(key, failures + 1))
        else if key.Some? then To(s, t, Releasing(key.value))
        else To(s, t, Over(Lost))
    case Release(t) =>
      if t !in s.threads || !s.threads[t].Releasing? then s
      else To(s, t, Over(Lost)).(emitted := Released(s.emitted, s.threads[t].held))
  }

  function Run(s: State, actions: seq<Action>): State {
    if actions == [] then s else Do(Run(s, actions[..|actions| - 1]), actions[|actions| - 1])
  }

  // ------------------------------------------------------------------ every interleaving

  /** The thread's send of this key is in flight, or failed and not yet released. */
  predicate Holds(s: State, t: nat, k: Key) {
    t in s.threads && (s.threads[t] == Releasing(k) || (s.threads[t].Sending? && s.threads[t].key == Some(k)))
  }

  /** A key is in the dedup set exactly when a thread holds it or its send has succeeded; never two
      threads hold it, never one after it has succeeded, and never has it succeeded twice. */
  ghost predicate ExactlyOnce(s: State) {
    && (forall k :: k in s.emitted <==> (k in s.wins || exists t :: Holds(s, t, k)))
    && (forall k, t, u :: Holds(s, t, k) && Holds(s, u, k) ==> t == u)
    && (forall k, t :: Holds(s, t, k) ==> k !in s.wins)
    && (forall i, j | 0 <= i < j < |s.wins| :: s.wins[i] != s.wins[j])
    && (forall t | t in s.threads && s.threads[t].Sending? :: s.threads[t].failures <= OP_RETRIES)
  }

  lemma {:induction false} ClaimKeeps(s: State, t: nat)
    requires ExactlyOnce(s)
    ensures ExactlyOnce(Do(s, Claim(t)))
  {
    var s' := Do(s, Claim(t));
    if t in s.threads && s.threads[t].Ready? {
      forall k
        ensures k in s'.emitted <==> (k in s'.wins || exists u :: Holds(s', u, k))
      {
        if u :| Holds(s', u, k) {
          assert u != t ==> Holds(s, u, k);
        }
        if u :| Holds(s, u, k) {
          assert u != t && Holds(s', u, k);
        }
        if k in s'.emitted && k !in s.emitted {
          assert Holds(s', t, k);
        }
      }
      forall k, u | Holds(s', u, k)
        ensures k !in s'.wins && (u == t <==> k !in s.emitted)
      {
        assert u != t ==> Holds(s, u, k);
      }
      forall k, v, u | Holds(s', v, k) && Holds(s', u, k)
        ensures v == u
      {
        assert v != t && u != t ==> Holds(s, v, k) && Holds(s, u, k);
      }
    }
  }

  lemma {:induction false} AttemptKeeps(s: State, t: nat, ok: bool)
    requires ExactlyOnce(s)
    ensures ExactlyOnce(Do(s, Attempt(t, ok)))
  {
    var s' := Do(s, Attempt(t, ok));
    if s' != s {
      var key := s.threads[t].key;
      if key.Some? {
        assert Holds(s, t, key.value);
      }
      forall k
        ensures k in s'.emitted <==> (k in s'.wins || exists u :: Holds(s', u, k))
      {
        if u :| Holds(s', u, k) {
          assert Holds(s, u, k);
        }
        if u :| Holds(s, u, k) {
          assert u != t ==> Holds(s', u, k);
          assert u == t ==> key == Some(k) && (k in s'.wins || Holds(s', t, k));
        }
      }
      forall k, u | Holds(s', u, k)
        ensures Holds(s, u, k) && k !in s'.wins
      {
        assert Holds(s, u, k);
      }
    }
  }

  lemma {:induction false} ReleaseKeeps(s: State, t: nat)
    requires ExactlyOnce(s)
    ensures ExactlyOnce(Do(s, Release(t)))
  {
    var s' := Do(s, Release(t));
    if s' != s {
      var held := s.threads[t].held;
      assert Holds(s, t, held);
      forall k
        ensures k in s'.emitted <==> (k in s'.wins || exists u :: Holds(s', u, k))
      {
        if u :| Holds(s', u, k) {
          assert Holds(s, u, k) && u != t;
        }
        if u :| Holds(s, u, k) {
          assert u != t ==> Holds(s', u, k);
        }
      }
      forall k, u | Holds(s', u, k)
        ensures Holds(s, u, k)
      {
      }
    }
  }

  lemma {:induction false} CallKeeps(s: State, t: nat, key: Option<Key>)
    requires ExactlyOnce(s)
    ensures ExactlyOnce(Do(s, Call(t, key)))
  {
    var s' := Do(s, Call(t, key));
    forall u, k
      ensures Holds(s', u, k) <==> Holds(s, u, k)
    {
    }
  }

  /** In every interleaving of any number of concurrent emits, with any pattern of transport failures,
      every key is sent successfully at most once and never twice at the same time. */
  lemma {:induction false} EveryInterleaving(actions: seq<Action>)
    ensures ExactlyOnce(Run(INITIAL, actions))
  {
    if actions != [] {
      var n := |actions| - 1;
      EveryInterleaving(actions[..n]);
      var s := Run(INITIAL, actions[..n]);
      match actions[n] {
        case Call(t, key) => CallKeeps(s, t, key);
        case Claim(t) => ClaimKeeps(s, t);
        case Attempt(t, ok) => AttemptKeeps(s, t, ok);
        case Release(t) => ReleaseKeeps(s, t);
      }
    }
  }

  /** A failed send does not suppress a retry: once its key is released no thread holds it, and a new
      emit of the same message claims it and goes on to send. */
  lemma {:induction false} FailureLeavesRetry(actions: seq<Action>, t: nat, again: nat)
    requires var s := Run(INITIAL, actions);
             t in s.threads && s.threads[t].Releasing? && again !in s.threads
    ensures var s := Run(INITIAL, actions);
            var k := s.threads[t].held;
            var released := Do(s, Release(t));
            && k !in released.emitted && (forall u :: !Holds(released, u, k))
            && Do(Do(released, Call(again, Some(k))), Claim(again)).threads[again] == Sending(Some(k), 0)
  {
    EveryInterleaving(actions);
    var s := Run(INITIAL, actions);
    var k := s.threads[t].held;
    var released := Do(s, Release(t));
    assert Holds(s, t, k);
    forall u
      ensures !Holds(released, u, k)
    {
      assert u != t && Holds(released, u, k) ==> Holds(s, u, k);
    }
  }

  /** An emit is dropped as a duplicate exactly when another thread is sending that message, or its
      send has already succeeded. */
  lemma {:induction false} DedupedIffTaken(actions: seq<Action>, t: nat)
    requires var s := Run(INITIAL, actions); t in s.threads && s.threads[t].Ready? && s.threads[t].key.Some?
    ensures var s := Run(INITIAL, actions);
            var k := s.threads[t].key.value;
            Do(s, Claim(t)).threads[t] == Over(Deduped) <==> (k in s.wins || exists u :: u != t && Holds(s, u, k))
  {
    EveryInterleaving(actions);
    var s := Run(INITIAL, actions);
    var k := s.threads[t].key.value;
    assert !Holds(s, t, k);
  }
}
