// Hotkey state shared by many per-device listeners: keys are counted, and a dying listener hands
// back its own share.
module Hotkey {
  import opened Prelude

  type Key = nat

  datatype Bindings = Bindings(talk: Key, modifiers: seq<Key>)

  datatype Intent = Dictate | LlmQuery

  datatype HotkeyEvent = Down(intent: Intent, reconstructed: bool) | Up

  datatype Shared = Shared(talkDown: nat, modifierCounts: map<Key, nat>, degradedAttach: bool)

  // What one listener's device holds down, as far as the listener has seen.
  datatype Pressed = Pressed(talkDown: bool, modifiers: set<Key>)

  const NothingPressed := Pressed(false, {})
  const NothingCounted := Shared(0, map[], false)

  // ---------------------------------------------------------------- counting keys

  function CountOf(m: map<Key, nat>, k: Key): nat { if k in m then m[k] else 0 }

  function KeyDown(m: map<Key, nat>, k: Key): map<Key, nat> { m[k := CountOf(m, k) + 1] }

  function KeyUp(m: map<Key, nat>, k: Key): map<Key, nat> {
    if k !in m then m else if m[k] > 1 then m[k := m[k] - 1] else m - {k}
  }

  // One share less of every key in `keys`, whatever the order.
  function KeysUp(m: map<Key, nat>, keys: set<Key>): map<Key, nat> {
    map k | k in m && (k !in keys || m[k] > 1) :: if k in keys then m[k] - 1 else m[k]
  }

  // One share more of every key in `keys`.
  function KeysDown(m: map<Key, nat>, keys: set<Key>): map<Key, nat> {
    map k | k in m.Keys + keys :: CountOf(m, k) + if k in keys then 1 else 0
  }

  function NoteKeyEvent(b: Bindings, p: Pressed, key: Key, value: int): Pressed {
    if key in b.modifiers then
      if value == 1 then p.(modifiers := p.modifiers + {key})
      else if value == 0 then p.(modifiers := p.modifiers - {key})
      else p
    else if key == b.talk then
      if value == 1 then p.(talkDown := true) else if value == 0 then p.(talkDown := false) else p
    else p
  }

  function DeriveEvent(b: Bindings, s: Shared, key: Key, value: int): (Shared, Option<HotkeyEvent>) {
    if key in b.modifiers then
      (if value == 1 then s.(modifierCounts := KeyDown(s.modifierCounts, key))
       else if value == 0 then s.(modifierCounts := KeyUp(s.modifierCounts, key))
       else s, None)
    else if key == b.talk && value == 1 then
      if s.talkDown == 0 then
        (Shared(1, s.modifierCounts, false),
         Some(Down(if s.modifierCounts != map[] then LlmQuery else Dictate, !s.degradedAttach)))
      else (s.(talkDown := s.talkDown + 1), None)
    else if key == b.talk && value == 0 && s.talkDown > 0 then
      (s.(talkDown := s.talkDown - 1), if s.talkDown == 1 then Some(Up) else None)
    else (s, None)
  }

  // The modifiers of a newly attached device that are held already.
  function SeededKeys(b: Bindings, held: set<Key>): set<Key> { set k | k in b.modifiers && k in held }

  function Release(s: Shared, p: Pressed): (Shared, Option<HotkeyEvent>) {
    var talkDown := if p.talkDown && s.talkDown > 0 then s.talkDown - 1 else s.talkDown;
    (s.(talkDown := talkDown, modifierCounts := KeysUp(s.modifierCounts, p.modifiers)),
     if talkDown < s.talkDown && talkDown == 0 then Some(Up) else None)
  }

  class HotkeySharedState {
    var talkDownCount: nat
    var preModifierDownCounts: map<Key, nat>
    var degradedAttachPending: bool

    ghost function State(): Shared
      reads this
    {
      Shared(talkDownCount, preModifierDownCounts, degradedAttachPending)
    }

    constructor ()
      ensures State() == NothingCounted
    {
      talkDownCount, preModifierDownCounts, degradedAttachPending := 0, map[], false;
    }

    method NotePreModifierDown(key: Key)
      modifies this`preModifierDownCounts
      ensures preModifierDownCounts == KeyDown(old(preModifierDownCounts), key)
    {
      if key !in preModifierDownCounts {
        preModifierDownCounts := preModifierDownCounts[key := 0];
      }
      preModifierDownCounts := preModifierDownCounts[key := preModifierDownCounts[key] + 1];
    }

    method NotePreModifierUp(key: Key)
      modifies this`preModifierDownCounts
      ensures preModifierDownCounts == KeyUp(old(preModifierDownCounts), key)
    {
      if key !in preModifierDownCounts {
        return;
      }
      if preModifierDownCounts[key] > 1 {
        preModifierDownCounts := preModifierDownCounts[key := preModifierDownCounts[key] - 1];
        return;
      }
      preModifierDownCounts := preModifierDownCounts - {key};
    }

    method NoteTalkDown() returns (wasUp: bool)
      modifies this`talkDownCount
      ensures wasUp == (old(talkDownCount) == 0) && talkDownCount == old(talkDownCount) + 1
    {
      wasUp := talkDownCount == 0;
      talkDownCount := talkDownCount + 1;
    }

    method NoteTalkUp() returns (nowUp: bool)
      modifies this`talkDownCount
      ensures nowUp == (old(talkDownCount) == 1)
      ensures talkDownCount == Monus(old(talkDownCount), 1)
    {
      if talkDownCount == 0 {
        return false;
      }
      talkDownCount := talkDownCount - 1;
      nowUp := talkDownCount == 0;
    }

    method DeriveHotkeyEvent(b: Bindings, key: Key, value: int) returns (event: Option<HotkeyEvent>)
      modifies this
      ensures (State(), event) == DeriveEvent(b, old(State()), key, value)
    {
      event := None;
      if key in b.modifiers {
        if value == 1 {
          NotePreModifierDown(key);
        } else if value == 0 {
          NotePreModifierUp(key);
        }
        return;
      }
      if key == b.talk {
        if value == 1 {
          var wasUp := NoteTalkDown();
          if wasUp {
            var intent := if preModifierDownCounts != map[] then LlmQuery else Dictate;
            var pending := degradedAttachPending;
            degradedAttachPending := false;
            event := Some(Down(intent, !pending));
          }
        } else if value == 0 {
          var nowUp := NoteTalkUp();
          if nowUp {
            event := Some(Up);
          }
        }
      }
    }

    // Seeds a fresh listener with the modifiers its device reports as held.
    method SeedListener(b: Bindings, held: set<Key>) returns (pressed: Pressed)
      modifies this`preModifierDownCounts
      ensures pressed == Pressed(false, SeededKeys(b, held))
      ensures preModifierDownCounts == KeysDown(old(preModifierDownCounts), SeededKeys(b, held))
    {
      var seeded: set<Key> := {};
      for i := 0 to |b.modifiers|
        invariant seeded == set k | k in b.modifiers[..i] && k in held
        invariant preModifierDownCounts == KeysDown(old(preModifierDownCounts), seeded)
      {
        var key := b.modifiers[i];
        assert b.modifiers[..i + 1] == b.modifiers[..i] + [key];
        if key in held && key !in seeded {
          NotePreModifierDown(key);
          seeded := seeded + {key};
        }
      }
      assert b.modifiers[..|b.modifiers|] == b.modifiers;
      pressed := Pressed(false, seeded);
    }

    method ReleaseListenerState(pressed: Pressed) returns (event: Option<HotkeyEvent>)
      modifies this
      ensures (State(), event) == Release(old(State()), pressed)
    {
      event := None;
      if pressed.talkDown && talkDownCount > 0 {
        talkDownCount := talkDownCount - 1;
        if talkDownCount == 0 {
          event := Some(Up);
        }
      }
      var todo := pressed.modifiers;
      assert preModifierDownCounts == KeysUp(preModifierDownCounts, {});
      while todo != {}
        invariant todo <= pressed.modifiers
        invariant preModifierDownCounts == KeysUp(old(preModifierDownCounts), pressed.modifiers - todo)
        invariant talkDownCount == Release(old(State()), pressed).0.talkDown
        invariant degradedAttachPending == old(degradedAttachPending)
        decreases todo
      {
        var key :| key in todo;
        ghost var done := pressed.modifiers - todo;
        if key in preModifierDownCounts {
          NotePreModifierUp(key);
        }
        todo := todo - {key};
        assert pressed.modifiers - todo == done + {key};
      }
      assert pressed.modifiers - {} == pressed.modifiers;
    }
  }

  // ---------------------------------------------------------------- all listeners together

  type ListenerId = nat

  datatype Hub = Hub(shared: Shared, live: map<ListenerId, Pressed>)

  // A device attaches with the keys it reports held, or without any report; sends a key event; or
  // its listener ends. `lost` marks an end whose pressed state did not survive the task.
  datatype Action =
    | Attach(id: ListenerId, held: Option<set<Key>>)
    | KeyEvent(id: ListenerId, key: Key, value: int)
    | Exit(id: ListenerId, lost: bool)

  const NoListeners := Hub(NothingCounted, map[])

  predicate Possible(h: Hub, a: Action) {
    if a.Attach? then a.id !in h.live else a.id in h.live
  }

  function Step(b: Bindings, h: Hub, a: Action): (Hub, Option<HotkeyEvent>)
    requires Possible(h, a)
  {
    match a
    case Attach(id, held) =>
      if held.None? then (Hub(h.shared.(degradedAttach := true), h.live[id := NothingPressed]), None)
      else
        var keys := SeededKeys(b, held.value);
        (Hub(h.shared.(modifierCounts := KeysDown(h.shared.modifierCounts, keys)),
             h.live[id := Pressed(false, keys)]), None)
    case KeyEvent(id, key, value) =>
      var (shared, event) := DeriveEvent(b, h.shared, key, value);
      (Hub(shared, h.live[id := NoteKeyEvent(b, h.live[id], key, value)]), event)
    case Exit(id, lost) =>
      var (shared, event) := Release(h.shared, if lost then NothingPressed else h.live[id]);
      (Hub(shared, h.live - {id}), event)
  }

  class HotkeyListeners {
    const bindings: Bindings
    const shared: HotkeySharedState
    var live: map<ListenerId, Pressed>

    ghost function State(): Hub
      reads this, shared
    {
      Hub(shared.State(), live)
    }

    constructor (bindings: Bindings)
      ensures State() == NoListeners && this.bindings == bindings && fresh(shared)
    {
      this.bindings := bindings;
      shared := new HotkeySharedState();
      live := map[];
    }

    method OnAttach(id: ListenerId, held: Option<set<Key>>)
      requires id !in live
      modifies this, shared
      ensures State() == Step(bindings, old(State()), Attach(id, held)).0
    {
      if held.None? {
        shared.degradedAttachPending := true;
        live := live[id := NothingPressed];
        return;
      }
      var pressed := shared.SeedListener(bindings, held.value);
      live := live[id := pressed];
    }

    method OnKeyEvent(id: ListenerId, key: Key, value: int) returns (event: Option<HotkeyEvent>)
      requires id in live
      modifies this, shared
      ensures (State(), event) == Step(bindings, old(State()), KeyEvent(id, key, value))
    {
      live := live[id := NoteKeyEvent(bindings, live[id], key, value)];
      event := shared.DeriveHotkeyEvent(bindings, key, value);
    }

    method OnExit(id: ListenerId, lost: bool) returns (event: Option<HotkeyEvent>)
      requires id in live
      modifies this, shared
      ensures (State(), event) == Step(bindings, old(State()), Exit(id, lost))
    {
      var pressed := if lost then NothingPressed else live[id];
      live := live - {id};
      event := shared.ReleaseListenerState(pressed);
    }
  }

  // ---------------------------------------------------------------- every count is a head count

  function TalkHolders(live: map<ListenerId, Pressed>): set<ListenerId> {
    set i | i in live && live[i].talkDown
  }

  function Holders(live: map<ListenerId, Pressed>, k: Key): set<ListenerId> {
    set i | i in live && k in live[i].modifiers
  }

  // Counts equal the numbers of live listeners holding the key; only held keys are in the map.
  ghost predicate Counted(h: Hub) {
    && h.shared.talkDown == |TalkHolders(h.live)|
    && (forall k :: CountOf(h.shared.modifierCounts, k) == |Holders(h.live, k)|)
    && (forall k :: k in h.shared.modifierCounts ==> h.shared.modifierCounts[k] > 0)
  }

  // The event presses a key this device is not holding, or releases one that it is holding or
  // that no listener holds.
  predicate Alternates(b: Bindings, h: Hub, a: Action)
    requires Possible(h, a) && a.KeyEvent?
  {
    var p := h.live[a.id];
    if a.key in b.modifiers then
      && (a.value == 1 ==> a.key !in p.modifiers)
      && (a.value == 0 ==> a.key in p.modifiers || Holders(h.live, a.key) == {})
    else if a.key == b.talk then
      && (a.value == 1 ==> !p.talkDown)
      && (a.value == 0 ==> p.talkDown || TalkHolders(h.live) == {})
    else true
  }

  // A listener whose pressed state is lost takes it with it unless it held nothing.
  predicate Accountable(b: Bindings, h: Hub, a: Action)
    requires Possible(h, a)
  {
    match a
    case Attach(_, _) => true
    case KeyEvent(_, _, _) => Alternates(b, h, a)
    case Exit(id, lost) => lost ==> h.live[id] == NothingPressed
  }

  lemma HoldersAfter(live: map<ListenerId, Pressed>, id: ListenerId, p: Pressed, k: Key)
    ensures Holders(live[id := p], k) == if k in p.modifiers then Holders(live, k) + {id} else Holders(live, k) - {id}
    ensures TalkHolders(live[id := p]) == if p.talkDown then TalkHolders(live) + {id} else TalkHolders(live) - {id}
  {
  }

  lemma HoldersWithout(live: map<ListenerId, Pressed>, id: ListenerId, k: Key)
    ensures Holders(live - {id}, k) == Holders(live, k) - {id}
    ensures TalkHolders(live - {id}) == TalkHolders(live) - {id}
  {
  }

  lemma AttachCounts(b: Bindings, h: Hub, a: Action, k: Key)
    requires Possible(h, a) && a.Attach? && CountOf(h.shared.modifierCounts, k) == |Holders(h.live, k)|
    ensures CountOf(Step(b, h, a).0.shared.modifierCounts, k) == |Holders(Step(b, h, a).0.live, k)|
    ensures TalkHolders(Step(b, h, a).0.live) == TalkHolders(h.live)
  {
    HoldersAfter(
      h.live, a.id, if a.held.None? then NothingPressed else Pressed(false, SeededKeys(b, a.held.value)), k);
    assert a.id !in Holders(h.live, k);
    assert Holders(h.live, k) - {a.id} == Holders(h.live, k);
    assert TalkHolders(h.live) - {a.id} == TalkHolders(h.live);
  }

  lemma AttachKeepsCounted(b: Bindings, h: Hub, a: Action)
    requires Counted(h) && Possible(h, a) && a.Attach?
    ensures Counted(Step(b, h, a).0)
  {
    AttachCounts(b, h, a, 0);
    var t := Step(b, h, a).0;
    forall k
      ensures CountOf(t.shared.modifierCounts, k) == |Holders(t.live, k)|
    {
      AttachCounts(b, h, a, k);
    }
  }

  lemma ExitKeepsCounted(b: Bindings, h: Hub, a: Action)
    requires Counted(h) && Possible(h, a) && a.Exit? && Accountable(b, h, a)
    ensures Counted(Step(b, h, a).0)
  {
    var p, t := h.live[a.id], Step(b, h, a).0;
    forall k
      ensures CountOf(t.shared.modifierCounts, k) == |Holders(t.live, k)|
    {
      HoldersWithout(h.live, a.id, k);
      assert a.id in Holders(h.live, k) <==> k in p.modifiers;
    }
    HoldersWithout(h.live, a.id, 0);
    assert a.id in TalkHolders(h.live) <==> p.talkDown;
  }

  lemma OneModifierCount(b: Bindings, h: Hub, a: Action, k: Key)
    requires Possible(h, a) && a.KeyEvent? && Alternates(b, h, a) && a.key in b.modifiers
    requires CountOf(h.shared.modifierCounts, k) == |Holders(h.live, k)|
    ensures CountOf(Step(b, h, a).0.shared.modifierCounts, k) == |Holders(Step(b, h, a).0.live, k)|
  {
    HoldersAfter(h.live, a.id, NoteKeyEvent(b, h.live[a.id], a.key, a.value), k);
    HeldOrNot(h.live, a.id, k);
  }

  lemma ModifierEventKeepsCounted(b: Bindings, h: Hub, a: Action)
    requires Counted(h) && Possible(h, a) && a.KeyEvent? && Alternates(b, h, a) && a.key in b.modifiers
    ensures Counted(Step(b, h, a).0)
  {
    forall k
      ensures CountOf(Step(b, h, a).0.shared.modifierCounts, k) == |Holders(Step(b, h, a).0.live, k)|
    {
      OneModifierCount(b, h, a, k);
    }
    HoldersAfter(h.live, a.id, NoteKeyEvent(b, h.live[a.id], a.key, a.value), 0);
    HeldOrNot(h.live, a.id, 0);
  }

  lemma HeldOrNot(live: map<ListenerId, Pressed>, id: ListenerId, k: Key)
    requires id in live
    ensures if k in live[id].modifiers then Holders(live, k) + {id} == Holders(live, k)
            else Holders(live, k) - {id} == Holders(live, k)
    ensures if live[id].talkDown then TalkHolders(live) + {id} == TalkHolders(live)
            else TalkHolders(live) - {id} == TalkHolders(live)
  {
  }

  lemma TalkCount(b: Bindings, h: Hub, a: Action)
    requires Possible(h, a) && a.KeyEvent? && Alternates(b, h, a) && a.key !in b.modifiers
    requires h.shared.talkDown == |TalkHolders(h.live)|
    ensures Step(b, h, a).0.shared.talkDown == |TalkHolders(Step(b, h, a).0.live)|
  {
    HoldersAfter(h.live, a.id, NoteKeyEvent(b, h.live[a.id], a.key, a.value), 0);
    HeldOrNot(h.live, a.id, 0);
    assert a.id in TalkHolders(h.live) <==> h.live[a.id].talkDown;
  }

  lemma TalkEventKeepsCounted(b: Bindings, h: Hub, a: Action)
    requires Counted(h) && Possible(h, a) && a.KeyEvent? && Alternates(b, h, a) && a.key !in b.modifiers
    ensures Counted(Step(b, h, a).0)
  {
    TalkCount(b, h, a);
    var t := Step(b, h, a).0;
    assert t.shared.modifierCounts == h.shared.modifierCounts;
    forall k
      ensures CountOf(t.shared.modifierCounts, k) == |Holders(t.live, k)|
    {
      HoldersAfter(h.live, a.id, NoteKeyEvent(b, h.live[a.id], a.key, a.value), k);
      HeldOrNot(h.live, a.id, k);
    }
  }

  // From a state where every count is a head count, an action keeps it so exactly when it is
  // accountable: a key event that alternates, or an exit that returns what the listener held.
  lemma CountsStayExactlyWhenAccountable(b: Bindings, h: Hub, a: Action)
    requires Counted(h) && Possible(h, a)
    ensures Counted(Step(b, h, a).0) <==> Accountable(b, h, a)
  {
    if Accountable(b, h, a) {
      match a
      case Attach(_, _) => AttachKeepsCounted(b, h, a);
      case KeyEvent(_, key, _) =>
        if key in b.modifiers { ModifierEventKeepsCounted(b, h, a); } else { TalkEventKeepsCounted(b, h, a); }
      case Exit(_, _) => ExitKeepsCounted(b, h, a);
    } else if a.KeyEvent? {
      UnaccountableKeyEvent(b, h, a);
    } else {
      UnaccountableExit(b, h, a);
    }
  }

  lemma UnaccountableKeyEvent(b: Bindings, h: Hub, a: Action)
    requires Counted(h) && Possible(h, a) && a.KeyEvent? && !Alternates(b, h, a)
    ensures !Counted(Step(b, h, a).0)
  {
    var p, t := h.live[a.id], Step(b, h, a).0;
    var q := NoteKeyEvent(b, p, a.key, a.value);
    HoldersAfter(h.live, a.id, q, a.key);
    if a.key in b.modifiers {
      var before := Holders(h.live, a.key);
      assert |before| == CountOf(h.shared.modifierCounts, a.key);
      assert a.id in before <==> a.key in p.modifiers;
      assert Holders(t.live, a.key) == before;
      assert |before| > 0;
      assert CountOf(t.shared.modifierCounts, a.key) != |before|;
    } else {
      var before := TalkHolders(h.live);
      assert a.id in before <==> p.talkDown;
      assert TalkHolders(t.live) == before;
      assert |before| > 0;
    }
  }

  lemma UnaccountableExit(b: Bindings, h: Hub, a: Action)
    requires Counted(h) && Possible(h, a) && a.Exit? && a.lost && h.live[a.id] != NothingPressed
    ensures !Counted(Step(b, h, a).0)
  {
    var p, t := h.live[a.id], Step(b, h, a).0;
    if p.talkDown {
      assert a.id in TalkHolders(h.live);
      HoldersWithout(h.live, a.id, 0);
    } else {
      var k :| k in p.modifiers;
      assert a.id in Holders(h.live, k);
      HoldersWithout(h.live, a.id, k);
      assert CountOf(t.shared.modifierCounts, k) == CountOf(h.shared.modifierCounts, k);
    }
  }

  // ---------------------------------------------------------------- runs

  predicate AccountableRun(b: Bindings, h: Hub, actions: seq<Action>)
    decreases |actions|
  {
    actions == []
    || (Possible(h, actions[0]) && Accountable(b, h, actions[0])
        && AccountableRun(b, Step(b, h, actions[0]).0, actions[1..]))
  }

  function Run(b: Bindings, h: Hub, actions: seq<Action>): Hub
    requires AccountableRun(b, h, actions)
    decreases |actions|
  {
    if actions == [] then h else Run(b, Step(b, h, actions[0]).0, actions[1..])
  }

  lemma {:induction false} RunKeepsCounted(b: Bindings, h: Hub, actions: seq<Action>)
    requires Counted(h) && AccountableRun(b, h, actions)
    ensures Counted(Run(b, h, actions))
    decreases |actions|
  {
    if actions != [] {
      CountsStayExactlyWhenAccountable(b, h, actions[0]);
      RunKeepsCounted(b, Step(b, h, actions[0]).0, actions[1..]);
    }
  }

  // Once every listener has exited, nothing is left counted.
  lemma AllSharesComeBack(b: Bindings, actions: seq<Action>)
    requires AccountableRun(b, NoListeners, actions) && Run(b, NoListeners, actions).live == map[]
    ensures var h := Run(b, NoListeners, actions);
            h.shared.talkDown == 0 && h.shared.modifierCounts == map[]
  {
    StartIsCounted();
    RunKeepsCounted(b, NoListeners, actions);
    var h := Run(b, NoListeners, actions);
    assert TalkHolders(h.live) == {};
    forall k
      ensures k !in h.shared.modifierCounts
    {
      assert Holders(h.live, k) == {};
    }
  }

  lemma StartIsCounted()
    ensures Counted(NoListeners)
  {
    assert TalkHolders(map[]) == {};
    assert forall k :: Holders(map[], k) == {};
  }

  // A talk key going down asks for an LLM query exactly when some live listener holds a
  // pre-modifier at that moment.
  lemma IntentIsWhatIsHeld(b: Bindings, h: Hub, a: Action)
    requires Counted(h) && Possible(h, a)
    ensures var event := Step(b, h, a).1;
            event.Some? && event.value.Down? ==>
              (event.value.intent == LlmQuery <==> exists i, k :: i in h.live && k in h.live[i].modifiers)
  {
    if exists i, k :: i in h.live && k in h.live[i].modifiers {
      var i, k :| i in h.live && k in h.live[i].modifiers;
      assert i in Holders(h.live, k);
      assert CountOf(h.shared.modifierCounts, k) > 0;
    }
    if h.shared.modifierCounts != map[] {
      var k :| k in h.shared.modifierCounts;
      assert CountOf(h.shared.modifierCounts, k) == |Holders(h.live, k)|;
      var i :| i in Holders(h.live, k);
      assert k in h.live[i].modifiers;
    }
  }

  // A talk key held while its device attaches is not seeded, so its release is counted against
  // another device: the session ends although the talk key is still down there.
  lemma UnseededTalkReleaseEndsTheSession(b: Bindings)
    requires b.talk !in b.modifiers
    ensures var h0 := NoListeners;
            var h1 := Step(b, h0, Attach(1, Some({}))).0;
            var h2 := Step(b, h1, KeyEvent(1, b.talk, 1)).0;
            var h3 := Step(b, h2, Attach(2, Some({b.talk}))).0;
            var (h4, event) := Step(b, h3, KeyEvent(2, b.talk, 0));
            event == Some(Up) && h4.live[1].talkDown
  {
  }

  // ---------------------------------------------------------------- what the devices do

  // The keys of each attached device: those it reported held when it attached or pressed since, and
  // those it pressed since, less those it released.
  datatype Devices = Devices(held: map<ListenerId, set<Key>>, pressed: map<ListenerId, set<Key>>)

  const NoDevices := Devices(map[], map[])

  function KeyMoved(keys: set<Key>, key: Key, value: int): set<Key> {
    if value == 1 then keys + {key} else if value == 0 then keys - {key} else keys
  }

  function DevicesAfter(w: Devices, a: Action): Devices {
    match a
    case Attach(id, held) => Devices(w.held[id := held.GetOr({})], w.pressed[id := {}])
    case KeyEvent(id, key, value) =>
      if id in w.held && id in w.pressed then
        Devices(w.held[id := KeyMoved(w.held[id], key, value)], w.pressed[id := KeyMoved(w.pressed[id], key, value)])
      else w
    case Exit(id, _) => Devices(w.held - {id}, w.pressed - {id})
  }

  // The listeners know exactly the pre-modifiers their devices hold, and the talk keys pressed while
  // they listened.
  ghost predicate Mirrors(b: Bindings, h: Hub, w: Devices) {
    && h.live.Keys == w.held.Keys == w.pressed.Keys
    && forall i :: i in h.live ==>
         && (forall k :: k in h.live[i].modifiers <==> k in b.modifiers && k in w.held[i])
         && (h.live[i].talkDown <==> b.talk in w.pressed[i])
  }

  lemma StepMirrors(b: Bindings, h: Hub, w: Devices, a: Action)
    requires b.talk !in b.modifiers && Possible(h, a) && Mirrors(b, h, w)
    ensures Mirrors(b, Step(b, h, a).0, DevicesAfter(w, a))
  {
  }

  function DevicesRun(w: Devices, actions: seq<Action>): Devices
    decreases |actions|
  {
    if actions == [] then w else DevicesRun(DevicesAfter(w, actions[0]), actions[1..])
  }

  lemma {:induction false} RunMirrors(b: Bindings, h: Hub, w: Devices, actions: seq<Action>)
    requires b.talk !in b.modifiers && Mirrors(b, h, w) && AccountableRun(b, h, actions)
    ensures Mirrors(b, Run(b, h, actions), DevicesRun(w, actions))
    decreases |actions|
  {
    if actions != [] {
      StepMirrors(b, h, w, actions[0]);
      RunMirrors(b, Step(b, h, actions[0]).0, DevicesAfter(w, actions[0]), actions[1..]);
    }
  }

  // The devices on which the talk key was pressed and not released.
  function Talking(b: Bindings, w: Devices): set<ListenerId> {
    set i | i in w.pressed && b.talk in w.pressed[i]
  }

  ghost predicate SomeModifierHeld(b: Bindings, w: Devices) {
    exists i, k :: i in w.held && k in w.held[i] && k in b.modifiers
  }

  // The event the devices call for: the first talk key down, with the intent of the pre-modifiers held
  // then, and the last one up or gone.
  ghost predicate CalledFor(b: Bindings, w: Devices, v: Devices, event: Option<HotkeyEvent>) {
    && (event.Some? && event.value.Down? <==> Talking(b, w) == {} && Talking(b, v) != {})
    && (event.Some? && event.value.Up? <==> Talking(b, w) != {} && Talking(b, v) == {})
    && (event.Some? && event.value.Down? ==> (event.value.intent == LlmQuery <==> SomeModifierHeld(b, w)))
  }

  lemma TalkingIsCounted(b: Bindings, h: Hub, w: Devices)
    requires Counted(h) && Mirrors(b, h, w)
    ensures Talking(b, w) == TalkHolders(h.live)
    ensures h.shared.talkDown == 0 <==> Talking(b, w) == {}
  {
    assert forall i :: i in Talking(b, w) <==> i in TalkHolders(h.live);
  }

  lemma ModifiersAreCounted(b: Bindings, h: Hub, w: Devices)
    requires Counted(h) && Mirrors(b, h, w)
    ensures h.shared.modifierCounts != map[] <==> SomeModifierHeld(b, w)
  {
    if h.shared.modifierCounts != map[] {
      var k :| k in h.shared.modifierCounts;
      assert CountOf(h.shared.modifierCounts, k) == |Holders(h.live, k)|;
      var i :| i in Holders(h.live, k);
      assert k in h.live[i].modifiers;
    }
    if SomeModifierHeld(b, w) {
      var i, k :| i in w.held && k in w.held[i] && k in b.modifiers;
      assert k in h.live[i].modifiers && i in Holders(h.live, k);
      assert CountOf(h.shared.modifierCounts, k) > 0;
    }
  }

  lemma StepIsCalledFor(b: Bindings, h: Hub, w: Devices, a: Action)
    requires b.talk !in b.modifiers && Counted(h) && Mirrors(b, h, w) && Possible(h, a) && Accountable(b, h, a)
    ensures CalledFor(b, w, DevicesAfter(w, a), Step(b, h, a).1)
  {
    var next := Step(b, h, a).0;
    CountsStayExactlyWhenAccountable(b, h, a);
    StepMirrors(b, h, w, a);
    TalkingIsCounted(b, h, w);
    TalkingIsCounted(b, next, DevicesAfter(w, a));
    ModifiersAreCounted(b, h, w);
  }

  // In every accountable run each action emits exactly the event its devices call for.
  lemma {:induction false} EventsAreCalledFor(b: Bindings, actions: seq<Action>, a: Action)
    requires b.talk !in b.modifiers && AccountableRun(b, NoListeners, actions)
    requires Possible(Run(b, NoListeners, actions), a) && Accountable(b, Run(b, NoListeners, actions), a)
    ensures var w := DevicesRun(NoDevices, actions);
            CalledFor(b, w, DevicesAfter(w, a), Step(b, Run(b, NoListeners, actions), a).1)
  {
    StartIsCounted();
    RunKeepsCounted(b, NoListeners, actions);
    RunMirrors(b, NoListeners, NoDevices, actions);
    StepIsCalledFor(b, Run(b, NoListeners, actions), DevicesRun(NoDevices, actions), a);
  }

  // ---------------------------------------------------------------- derived events alternate

  // Everything that can happen to the shared state under its lock, with no assumption at all.
  datatype SharedOp = Derive(key: Key, value: int) | Give(pressed: Pressed) | Seed(keys: set<Key>) | Degrade

  function DoShared(b: Bindings, s: Shared, op: SharedOp): (Shared, Option<HotkeyEvent>) {
    match op
    case Derive(key, value) => DeriveEvent(b, s, key, value)
    case Give(pressed) => Release(s, pressed)
    case Seed(keys) => (s.(modifierCounts := KeysDown(s.modifierCounts, keys)), None)
    case Degrade => (s.(degradedAttach := true), None)
  }

  function DoAllShared(b: Bindings, s: Shared, ops: seq<SharedOp>): (Shared, seq<HotkeyEvent>)
    decreases |ops|
  {
    if ops == [] then (s, [])
    else
      var (before, events) := DoAllShared(b, s, ops[..|ops| - 1]);
      var (after, event) := DoShared(b, before, ops[|ops| - 1]);
      (after, if event.Some? then events + [event.value] else events)
  }

  // A press tells that the state was not reconstructed exactly if a device has attached without a
  // report since the last press that told anything.
  lemma DegradedIsToldOnce(b: Bindings, s: Shared, op: SharedOp)
    ensures var (t, event) := DoShared(b, s, op);
            var pressed := event.Some? && event.value.Down?;
            && (t.degradedAttach <==> op.Degrade? || (s.degradedAttach && !pressed))
            && (pressed ==> (event.value.reconstructed <==> !s.degradedAttach))
  {
  }

  // Down, Up, Down, Up, ... starting with Down.
  predicate DownUpDown(events: seq<HotkeyEvent>) {
    forall k :: 0 <= k < |events| ==> (events[k].Down? <==> k % 2 == 0)
  }

  // Whatever keys do and listeners return, the events derived under the lock alternate, and the
  // last one is a Down exactly while some talk key is counted down.
  lemma {:induction false} EventsAlternate(b: Bindings, ops: seq<SharedOp>)
    ensures var (s, events) := DoAllShared(b, NothingCounted, ops);
            && DownUpDown(events)
            && (s.talkDown > 0 <==> events != [] && events[|events| - 1].Down?)
    decreases |ops|
  {
    if ops != [] {
      EventsAlternate(b, ops[..|ops| - 1]);
      var (before, events) := DoAllShared(b, NothingCounted, ops[..|ops| - 1]);
      var (after, event) := DoShared(b, before, ops[|ops| - 1]);
      assert |events| % 2 == 0 <==> before.talkDown == 0;
    }
  }
}
