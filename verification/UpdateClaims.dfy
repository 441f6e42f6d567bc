/** Update claims, shared by manual updaters and the hooks of the automatic ones. */
module UpdateClaims {
  type Key = string

  /** The two maps of the source hold `true` or nothing, so they are the sets of their keys. */
  datatype Claims = Claims(inFlight: set<Key>, hookClaims: set<Key>)

  function Claimed(c: Claims, key: Key): Claims {
    c.(inFlight := c.inFlight + {key})
  }

  function Released(c: Claims, key: Key): Claims {
    Claims(c.inFlight - {key}, c.hookClaims - {key})
  }

  function HookStarted(c: Claims, key: Key): Claims {
    if key in c.inFlight then c else Claims(c.inFlight + {key}, c.hookClaims + {key})
  }

  function HookFinished(c: Claims, key: Key): Claims {
    if key !in c.hookClaims then c else Claims(c.inFlight - {key}, c.hookClaims - {key})
  }

  /** A manual updater: before its claim, running, turned away, or done. */
  datatype Updater = Updater(key: Key, step: Step)

  datatype Step = Asking | Updating | TurnedAway | Done

  /** `open` holds one copy of a key for each automatic update of it that has started and not finished. */
  datatype State = State(claims: Claims, updaters: seq<Updater>, open: multiset<Key>)

  datatype Event = Ask(key: Key) | Advance(i: nat) | StartHook(key: Key) | FinishHook(key: Key)

  function Next(s: State, event: Event): State {
    match event
    case Ask(key) => s.(updaters := s.updaters + [Updater(key, Asking)])
    case Advance(i) =>
      if i >= |s.updaters| then s
      else
        var u := s.updaters[i];
        (match u.step
         case Asking =>
           if u.key in s.claims.inFlight then s.(updaters := s.updaters[i := u.(step := TurnedAway)])
           else s.(updaters := s.updaters[i := u.(step := Updating)], claims := Claimed(s.claims, u.key))
         case Updating => s.(updaters := s.updaters[i := u.(step := Done)], claims := Released(s.claims, u.key))
         case _ => s)
    case StartHook(key) => s.(claims := HookStarted(s.claims, key), open := s.open + multiset{key})
    case FinishHook(key) =>
      // A hook finishes only after it has started.
      if key !in s.open then s
      else s.(claims := HookFinished(s.claims, key), open := s.open - multiset{key})
  }

  function Run(s: State, events: seq<Event>): State {
    if events == [] then s else Next(Run(s, events[..|events| - 1]), events[|events| - 1])
  }

  function Empty(): State {
    State(Claims({}, {}), [], multiset{})
  }

  predicate Running(s: State, i: nat) {
    i < |s.updaters| && s.updaters[i].step == Updating
  }

  /** Every key in flight is held by exactly one manual update or by a hook episode, never by both. */
  ghost predicate Held(s: State) {
    && s.claims.hookClaims <= s.claims.inFlight
    && (forall i: nat | i < |s.updaters| ::
          Running(s, i) ==> s.updaters[i].key in s.claims.inFlight && s.updaters[i].key !in s.claims.hookClaims)
    && (forall i: nat, j: nat | i < j < |s.updaters| :: Running(s, i) && Running(s, j) ==>
        s.updaters[i].key != s.updaters[j].key)
    && (forall key | key in s.claims.inFlight ::
          key in s.claims.hookClaims || exists i: nat :: Running(s, i) && s.updaters[i].key == key)
    && (forall key | key in s.claims.hookClaims :: key in s.open)
  }

  lemma AdvanceKeepsHeld(s: State, i: nat)
    requires Held(s)
    ensures Held(Next(s, Advance(i)))
  {
    var t := Next(s, Advance(i));
    if i < |s.updaters| {
      assert forall k | 0 <= k < |s.updaters| && k != i :: t.updaters[k] == s.updaters[k];
      forall key | key in t.claims.inFlight && key !in t.claims.hookClaims
        ensures exists k: nat :: Running(t, k) && t.updaters[k].key == key
      {
        if key in s.claims.inFlight {
          var k: nat :| Running(s, k) && s.updaters[k].key == key;
          assert Running(t, k);
        } else {
          assert Running(t, i);
        }
      }
    }
  }

  lemma AskKeepsHeld(s: State, key: Key)
    requires Held(s)
    ensures Held(Next(s, Ask(key)))
  {
    var t := Next(s, Ask(key));
    assert forall k: nat | k < |s.updaters| :: Running(t, k) == Running(s, k) && t.updaters[k] == s.updaters[k];
    assert !Running(t, |s.updaters|);
    forall other | other in t.claims.inFlight && other !in t.claims.hookClaims
      ensures exists k: nat :: Running(t, k) && t.updaters[k].key == other
    {
      var k: nat :| Running(s, k) && s.updaters[k].key == other;
      assert Running(t, k);
    }
  }

  lemma HooksKeepHeld(s: State, event: Event)
    requires Held(s) && (event.StartHook? || event.FinishHook?)
    ensures Held(Next(s, event))
  {
    var t := Next(s, event);
    assert forall k: nat :: Running(t, k) == Running(s, k);
    forall key | key in t.claims.inFlight && key !in t.claims.hookClaims
      ensures exists k: nat :: Running(t, k) && t.updaters[k].key == key
    {
      var k: nat :| Running(s, k) && s.updaters[k].key == key;
      assert Running(t, k);
    }
  }

  lemma NextKeepsHeld(s: State, event: Event)
    requires Held(s)
    ensures Held(Next(s, event))
  {
    match event
    case Ask(key) => AskKeepsHeld(s, key);
    case Advance(i) => AdvanceKeepsHeld(s, i);
    case _ => HooksKeepHeld(s, event);
  }

  lemma {:induction false} HeldAlways(events: seq<Event>)
    ensures Held(Run(Empty(), events))
  {
    if events != [] {
      HeldAlways(events[..|events| - 1]);
      NextKeepsHeld(Run(Empty(), events[..|events| - 1]), events[|events| - 1]);
    }
  }

  /** In every interleaving, at most one manual update runs per key. */
  lemma OneUpdatePerKey(events: seq<Event>, i: nat, j: nat)
    requires var s := Run(Empty(), events); Running(s, i) && Running(s, j) && s.updaters[i].key == s.updaters[j].key
    ensures i == j
  {
    HeldAlways(events);
  }

  /** Whatever hooks start and finish inside a manual update, its claim stays, and it is not theirs. */
  lemma {:induction false} HooksNeverFreeAnUpdate(events: seq<Event>, hooks: seq<Event>, i: nat)
    requires var s := Run(Empty(), events); Running(s, i)
    requires forall k | 0 <= k < |hooks| :: hooks[k].StartHook? || hooks[k].FinishHook?
    ensures var s, t := Run(Empty(), events), Run(Run(Empty(), events), hooks);
            && t.updaters == s.updaters && Held(t)
            && s.updaters[i].key in t.claims.inFlight && s.updaters[i].key !in t.claims.hookClaims
  {
    if hooks == [] {
      HeldAlways(events);
    } else {
      HooksNeverFreeAnUpdate(events, hooks[..|hooks| - 1], i);
      HooksKeepHeld(Run(Run(Empty(), events), hooks[..|hooks| - 1]), hooks[|hooks| - 1]);
      var t := Run(Run(Empty(), events), hooks);
      assert Running(t, i);
    }
  }

  lemma HookClaimStays(s: State, event: Event, key: Key)
    requires Held(s) && key in s.claims.hookClaims && event != FinishHook(key)
    ensures Held(Next(s, event)) && key in Next(s, event).claims.hookClaims
  {
    NextKeepsHeld(s, event);
  }

  /** While an automatic update holds its claim, no manual update of that key runs, whatever else happens. */
  lemma {:induction false} HookClaimShutsOutUpdates(events: seq<Event>, more: seq<Event>, key: Key)
    requires key in Run(Empty(), events).claims.hookClaims
    requires forall k | 0 <= k < |more| :: more[k] != FinishHook(key)
    ensures var t := Run(Run(Empty(), events), more);
            && Held(t) && key in t.claims.hookClaims
            && forall i: nat | i < |t.updaters| :: Running(t, i) ==> t.updaters[i].key != key
  {
    var t := Run(Run(Empty(), events), more);
    if more == [] {
      HeldAlways(events);
    } else {
      hide Next, Held;
      HookClaimShutsOutUpdates(events, more[..|more| - 1], key);
      HookClaimStays(Run(Run(Empty(), events), more[..|more| - 1]), more[|more| - 1], key);
    }
    HeldMeansApart(t, key);
  }

  lemma HeldMeansApart(s: State, key: Key)
    requires Held(s) && key in s.claims.hookClaims
    ensures forall i: nat | i < |s.updaters| :: Running(s, i) ==> s.updaters[i].key != key
  {}

  /** A hook that starts on a free key claims it, and holds it, whatever happens, until a hook for it finishes. */
  lemma HookClaimsFreeKey(events: seq<Event>, more: seq<Event>, key: Key)
    requires key !in Run(Empty(), events).claims.inFlight
    requires forall k | 0 <= k < |more| :: more[k] != FinishHook(key)
    ensures var t := Run(Run(Empty(), events + [StartHook(key)]), more);
            && key in t.claims.hookClaims && key in t.claims.inFlight
            && forall i: nat | i < |t.updaters| :: Running(t, i) ==> t.updaters[i].key != key
  {
    assert (events + [StartHook(key)])[..|events|] == events;
    HookClaimShutsOutUpdates(events + [StartHook(key)], more, key);
  }

  /** A manual update is let in exactly if its key is free, and ends its own claim and nothing else. */
  lemma UpdateIsLetInExactly(events: seq<Event>, i: nat)
    requires var s := Run(Empty(), events);
             i < |s.updaters| && !s.updaters[i].step.TurnedAway? && !s.updaters[i].step.Done?
    ensures var s, t := Run(Empty(), events), Next(Run(Empty(), events), Advance(i));
            var key := s.updaters[i].key;
            && (s.updaters[i].step == Asking ==>
                  && (Running(t, i) <==> key !in s.claims.inFlight)
                  && t.claims.inFlight == s.claims.inFlight + {key} && t.claims.hookClaims == s.claims.hookClaims)
            && (s.updaters[i].step == Updating ==>
                  && !Running(t, i)
                  && t.claims.inFlight == s.claims.inFlight - {key} && t.claims.hookClaims == s.claims.hookClaims)
  {
    HeldAlways(events);
  }

  /** Once no manual update runs and every automatic one has finished, nothing is claimed any more. */
  lemma AllWorkReleases(events: seq<Event>)
    requires var s := Run(Empty(), events);
             && s.open == multiset{} && forall i: nat | i < |s.updaters| :: !Running(s, i)
    ensures Run(Empty(), events).claims == Claims({}, {})
  {
    HeldAlways(events);
    var s := Run(Empty(), events);
    assert s.claims.hookClaims == {};
    assert forall key | key in s.claims.inFlight :: key in s.claims.hookClaims;
    assert s.claims.inFlight == {};
  }

  const GEO_UPDATE_SCOPE := "geo:"
  const PROVIDER_UPDATE_SCOPE := "provider:"

  /** A geo resource and a provider never share a key, so neither shuts the other out. */
  lemma ScopesAreApart(geoType: string, providerName: string)
    ensures GEO_UPDATE_SCOPE + geoType != PROVIDER_UPDATE_SCOPE + providerName
  {
    assert (GEO_UPDATE_SCOPE + geoType)[0] == 'g' && (PROVIDER_UPDATE_SCOPE + providerName)[0] == 'p';
  }

  /** The two package-level maps, changed in place; each method is one critical section of `updateMu`. */
  class Registry {
    var updateInFlight: map<Key, bool>
    var geoHookClaims: map<Key, bool>

    /** Reading a missing key of a map gives `false`. */
    static function At(m: map<Key, bool>, key: Key): bool {
      key in m && m[key]
    }

    function View(): Claims
      reads this
    {
      Claims(set key | key in updateInFlight && updateInFlight[key],
             set key | key in geoHookClaims && geoHookClaims[key])
    }

    constructor ()
      ensures View() == Empty().claims
    {
      updateInFlight, geoHookClaims := map[], map[];
    }

    method ClaimUpdate(key: Key) returns (claimed: bool)
      modifies this
      ensures claimed == (key !in old(View()).inFlight)
      ensures View() == if claimed then Claimed(old(View()), key) else old(View())
    {
      if At(updateInFlight, key) {
        return false;
      }
      updateInFlight := updateInFlight[key := true];
      return true;
    }

    method ReleaseUpdate(key: Key)
      modifies this
      ensures View() == Released(old(View()), key)
    {
      updateInFlight := updateInFlight - {key};
      geoHookClaims := geoHookClaims - {key};
    }

    method ClaimGeoUpdateFromHook(geoType: string)
      modifies this
      ensures View() == HookStarted(old(View()), GEO_UPDATE_SCOPE + geoType)
    {
      var key := GEO_UPDATE_SCOPE + geoType;
      if At(updateInFlight, key) {
        return;
      }
      updateInFlight := updateInFlight[key := true];
      geoHookClaims := geoHookClaims[key := true];
    }

    method ReleaseGeoUpdateFromHook(geoType: string)
      modifies this
      ensures View() == HookFinished(old(View()), GEO_UPDATE_SCOPE + geoType)
    {
      var key := GEO_UPDATE_SCOPE + geoType;
      if !At(geoHookClaims, key) {
        return;
      }
      geoHookClaims := geoHookClaims - {key};
      updateInFlight := updateInFlight - {key};
    }
  }
}
