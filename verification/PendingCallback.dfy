/** The single pending permission callback: every installed callback has exactly one fate. */
module PendingCallback {
  import opened Options

  /**
   `Due` is a callback that has been swapped out and is about to be invoked outside the lock, with the value it is owed;
   the flag tells whether it is due because it was superseded. The other states are final, apart from `Pending`.
   */
  datatype Fate = Pending | Due(superseded: bool, value: Value) | Settled | Superseded | Cancelled

  /** What a callback is told; every use of the slot asks a question of yes or no. */
  type Value = bool

  /** One installation of a callback. `callback` is the identity that `cancel` compares; `told` are its invocations. */
  datatype Installed = Installed(callback: nat, fate: Fate, told: seq<Value>)

  /** The slot names the installation it holds. */
  datatype State = State(slot: Option<nat>, installed: seq<Installed>)

  datatype Event =
    | Replace(callback: nat, supersededValue: Value)
    | Resolve(value: Value)
    | Cancel(callback: nat)
    | Invoke(i: nat)

  function WithFate(s: State, i: nat, fate: Fate): State
    requires i < |s.installed|
  {
    s.(installed := s.installed[i := s.installed[i].(fate := fate)])
  }

  /** The occupant of the slot leaves it with the given fate. */
  function Vacated(s: State, fate: Fate): State {
    if s.slot.Some? && s.slot.value < |s.installed| then WithFate(s, s.slot.value, fate).(slot := None) else s
  }

  /** Each swap of the slot is atomic; an invocation is a separate event, so a callback may install the next request. */
  function Next(s: State, event: Event): State {
    match event
    case Replace(callback, supersededValue) =>
      var t := Vacated(s, Due(true, supersededValue));
      State(Some(|t.installed|), t.installed + [Installed(callback, Pending, [])])
    case Resolve(value) => Vacated(s, Due(false, value))
    case Cancel(callback) =>
      if s.slot.Some? && s.slot.value < |s.installed| && s.installed[s.slot.value].callback == callback
      then Vacated(s, Cancelled) else s
    case Invoke(i) =>
      if i < |s.installed| && s.installed[i].fate.Due? then
        var one := s.installed[i];
        var fate := if one.fate.superseded then Superseded else Settled;
        s.(installed := s.installed[i := Installed(one.callback, fate, one.told + [one.fate.value])])
      else s
  }

  function Run(s: State, events: seq<Event>): State {
    if events == [] then s else Next(Run(s, events[..|events| - 1]), events[|events| - 1])
  }

  function Empty(): State {
    State(None, [])
  }

  /** Pending is exactly what the slot holds, and the number of invocations is the one that goes with the fate. */
  ghost predicate Conserved(s: State) {
    && (s.slot.Some? ==> s.slot.value < |s.installed|)
    && forall i | 0 <= i < |s.installed| ::
         && (s.installed[i].fate.Pending? <==> s.slot == Some(i))
         && |s.installed[i].told| == (if s.installed[i].fate.Settled? || s.installed[i].fate.Superseded? then 1 else 0)
  }

  lemma NextConserves(s: State, event: Event)
    requires Conserved(s)
    ensures Conserved(Next(s, event))
  {
  }

  /**
   Over any interleaving of installations, answers, cancellations and invocations, every installation is pending and
   alone in the slot, or about to be invoked for the only time, or settled once, superseded once, or cancelled without
   a call.
   */
  lemma {:induction false} EveryCallbackIsConserved(events: seq<Event>)
    ensures Conserved(Run(Empty(), events))
  {
    if events != [] {
      EveryCallbackIsConserved(events[..|events| - 1]);
      NextConserves(Run(Empty(), events[..|events| - 1]), events[|events| - 1]);
    }
  }

  /** How the same installation may look later on. */
  predicate Later(before: Installed, after: Installed) {
    && after.callback == before.callback
    && match before.fate
       case Pending => true
       case Due(superseded, value) =>
         || after == before
         || (after.fate == (if superseded then Superseded else Settled) && after.told == [value])
       case _ => after == before
  }

  lemma FateStays(s: State, event: Event, i: nat)
    requires Conserved(s) && i < |s.installed|
    ensures i < |Next(s, event).installed| && Later(s.installed[i], Next(s, event).installed[i])
  {
  }

  lemma LaterTransitive(a: Installed, b: Installed, c: Installed)
    requires Later(a, b) && Later(b, c)
    ensures Later(a, c)
  {
  }

  /** A fate is never revised: what has been decided for an installation stays decided, whatever comes later. */
  lemma {:induction false} FatesAreFinal(s: State, events: seq<Event>, i: nat)
    requires Conserved(s) && i < |s.installed|
    ensures var t := Run(s, events); Conserved(t) && i < |t.installed| && Later(s.installed[i], t.installed[i])
  {
    if events != [] {
      hide Next, Conserved, Later;
      var before := events[..|events| - 1];
      FatesAreFinal(s, before, i);
      var u, event := Run(s, before), events[|events| - 1];
      NextConserves(u, event);
      FateStays(u, event, i);
      LaterTransitive(s.installed[i], u.installed[i], Next(u, event).installed[i]);
    } else {
      assert Later(s.installed[i], s.installed[i]);
    }
  }

  /** How a step can end the wait of a pending installation: an answer, a newer request, or its own cancellation. */
  lemma PendingLeavesFor(s: State, event: Event, i: nat)
    requires Conserved(s) && i < |s.installed| && s.installed[i].fate.Pending?
    ensures var fate := Next(s, event).installed[i].fate;
            && (forall value :: fate == Due(true, value) <==> event.Replace? && event.supersededValue == value)
            && (forall value :: fate == Due(false, value) <==> event == Resolve(value))
            && (fate == Cancelled <==> event == Cancel(s.installed[i].callback))
            && (fate == Pending <==> !event.Replace? && !event.Resolve? && event != Cancel(s.installed[i].callback))
  {
  }

  /** What the first answer or the first newer request has to say to a callback that waits for it. */
  function FirstAnswer(events: seq<Event>): Option<Value> {
    if events == [] then None
    else
      var before := FirstAnswer(events[..|events| - 1]);
      if before.Some? then before
      else
        match events[|events| - 1]
        case Replace(_, supersededValue) => Some(supersededValue)
        case Resolve(value) => Some(value)
        case _ => None
  }

  /**
   Nobody is left waiting: unless it is cancelled, an installation is called exactly once, as soon as the invocation
   runs that the first answer or the first newer request has made due, and is told that, whatever else happens.
   */
  lemma {:induction false} AnsweredOnce(s: State, events: seq<Event>, i: nat)
    requires Conserved(s) && i < |s.installed| && s.installed[i].fate.Pending?
    requires forall k | 0 <= k < |events| :: events[k] != Cancel(s.installed[i].callback)
    ensures var t, answer := Run(s, events), FirstAnswer(events);
            && Conserved(t) && i < |t.installed| && t.installed[i].callback == s.installed[i].callback
            && (answer.None? <==> t.installed[i].fate.Pending?)
            && (answer.Some? ==> Answered(t.installed[i], answer.value))
            && (answer.Some? ==> Next(t, Invoke(i)).installed[i].told == [answer.value])
  {
    FatesAreFinal(s, events, i);
    if events != [] {
      var before, event := events[..|events| - 1], events[|events| - 1];
      AnsweredOnce(s, before, i);
      var u := Run(s, before);
      hide Run;
      assert event != Cancel(u.installed[i].callback);
      if u.installed[i].fate.Pending? {
        PendingLeavesFor(u, event, i);
      } else {
        FateStays(u, event, i);
      }
    }
  }

  /** The value is what the callback is owed, or what it has been told. */
  predicate Answered(one: Installed, value: Value) {
    match one.fate
    case Due(_, owed) => owed == value && one.told == []
    case Settled => one.told == [value]
    case Superseded => one.told == [value]
    case _ => false
  }

  /** A call that the slot owes to a callback it has given up. */
  datatype Owed = Owed(callback: nat, value: Value)

  /** The slot, swapped in place under its lock; invocations are left to the caller. */
  class PendingSlot {
    var callback: Option<nat>
    ghost var slot: Option<nat>
    ghost var installed: seq<Installed>

    ghost function View(): State
      reads this
    {
      State(slot, installed)
    }

    ghost predicate Valid()
      reads this
    {
      && Conserved(View())
      && callback == if slot.Some? then Some(installed[slot.value].callback) else None
    }

    constructor ()
      ensures Valid() && View() == Empty()
    {
      callback, slot, installed := None, None, [];
    }

    /** The superseded callback, if any, has to be told so next. */
    method Replace(next: nat, supersededValue: Value) returns (owed: Option<Owed>)
      requires Valid()
      modifies this
      ensures Valid() && View() == Next(old(View()), Event.Replace(next, supersededValue))
      ensures owed == OwedTo(old(callback), supersededValue) && callback == Some(next)
    {
      NextConserves(View(), Event.Replace(next, supersededValue));
      ghost var after := Next(View(), Event.Replace(next, supersededValue));
      owed := OwedTo(callback, supersededValue);
      callback := Some(next);
      slot, installed := after.slot, after.installed;
    }

    static function OwedTo(callback: Option<nat>, value: Value): Option<Owed> {
      match callback
      case None => None
      case Some(id) => Some(Owed(id, value))
    }

    method Resolve(value: Value) returns (owed: Option<Owed>)
      requires Valid()
      modifies this
      ensures Valid() && View() == Next(old(View()), Event.Resolve(value))
      ensures owed == OwedTo(old(callback), value) && callback == None
    {
      NextConserves(View(), Event.Resolve(value));
      ghost var after := Next(View(), Event.Resolve(value));
      owed := OwedTo(callback, value);
      callback := None;
      slot, installed := after.slot, after.installed;
    }

    method Cancel(target: nat)
      requires Valid()
      modifies this
      ensures Valid() && View() == Next(old(View()), Event.Cancel(target))
      ensures callback == if old(callback) == Some(target) then None else old(callback)
    {
      NextConserves(View(), Event.Cancel(target));
      ghost var after := Next(View(), Event.Cancel(target));
      if callback == Some(target) {
        callback := None;
      }
      slot, installed := after.slot, after.installed;
    }
  }
}
