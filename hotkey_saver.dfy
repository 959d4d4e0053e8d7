/** The hotkey recorder of src/hotkeysaver.py: while hooked, key-down events
    add the key to the held set and to the set of every key seen; when the
    last held key is released, the seen keys become the recorded hotkey. */
module HotkeyCapture {
  import Text

  datatype KeyEvent = KeyDown(name: string) | KeyUp(name: string)

  /** The saver's fields: `_current_keys`, `_all_keys`, `_hotkey_string`, the
      done event, and whether its keyboard hook is installed. */
  datatype SaverState = SaverState(
    currentKeys: set<string>,
    allKeys: set<string>,
    hotkeyString: string,
    done: bool,
    hooked: bool)

  /** A new saver has seen nothing and recorded nothing. */
  const Fresh := SaverState({}, {}, "", false, false)

  /** Every key held is a key seen. */
  predicate Inv(s: SaverState) {
    s.currentKeys <= s.allKeys
  }

  /** `_handle_hook`. `hotkeyName` is `keyboard.get_hotkey_name`, a function
      of the set of keys seen. */
  function HandleHook(s: SaverState, e: KeyEvent, hotkeyName: set<string> -> string): (t: SaverState)
    ensures Inv(s) ==> Inv(t)
    ensures e.KeyDown? ==> e.name in t.currentKeys && e.name in t.allKeys && t.allKeys == s.allKeys + {e.name}
    ensures e.KeyDown? ==> t.done == s.done && t.hotkeyString == s.hotkeyString && t.hooked == s.hooked
    ensures e.KeyUp? ==> e.name !in t.currentKeys && t.currentKeys == s.currentKeys - {e.name}
    ensures e.KeyUp? && s.currentKeys - {e.name} != {} ==>
      t.allKeys == s.allKeys && t.done == s.done && t.hotkeyString == s.hotkeyString && t.hooked == s.hooked
    ensures e.KeyUp? && s.currentKeys - {e.name} == {} ==>
      t.done && !t.hooked && t.allKeys == {} && t.hotkeyString == hotkeyName(s.allKeys)
  {
    match e
    case KeyDown(k) =>
      s.(currentKeys := s.currentKeys + {k}, allKeys := s.allKeys + {k})
    case KeyUp(k) =>
      var held := s.currentKeys - {k};
      if held == {} then
        s.(currentKeys := held, hotkeyString := hotkeyName(s.allKeys), allKeys := {}, hooked := false, done := true)
      else
        s.(currentKeys := held)
  }

  /** The saver after the events `es`, in order. */
  function Replay(s: SaverState, es: seq<KeyEvent>, hotkeyName: set<string> -> string): SaverState
    decreases |es|
  {
    if es == [] then s else Replay(HandleHook(s, es[0], hotkeyName), es[1..], hotkeyName)
  }

  function Presses(ks: seq<string>): (es: seq<KeyEvent>)
    ensures |es| == |ks| && forall i :: 0 <= i < |ks| ==> es[i] == KeyDown(ks[i])
  {
    if ks == [] then [] else [KeyDown(ks[0])] + Presses(ks[1..])
  }

  function Releases(ks: seq<string>): (es: seq<KeyEvent>)
    ensures |es| == |ks| && forall i :: 0 <= i < |ks| ==> es[i] == KeyUp(ks[i])
  {
    if ks == [] then [] else [KeyUp(ks[0])] + Releases(ks[1..])
  }

  function Keys(ks: seq<string>): set<string> {
    set i | 0 <= i < |ks| :: ks[i]
  }

  predicate Distinct(ks: seq<string>) {
    forall i, j :: 0 <= i < j < |ks| ==> ks[i] != ks[j]
  }

  lemma {:induction false} ReplayAppend(s: SaverState, a: seq<KeyEvent>, b: seq<KeyEvent>, hotkeyName: set<string> -> string)
    ensures Replay(s, a + b, hotkeyName) == Replay(Replay(s, a, hotkeyName), b, hotkeyName)
    decreases |a|
  {
    if a == [] {
      assert a + b == b;
    } else {
      assert (a + b)[1..] == a[1..] + b;
      ReplayAppend(HandleHook(s, a[0], hotkeyName), a[1..], b, hotkeyName);
    }
  }

  /** Pressing keys (repeats allowed, as with key auto-repeat) adds each of
      them to the held and the seen keys and finishes nothing. */
  lemma {:induction false} PressAll(s: SaverState, ks: seq<string>, hotkeyName: set<string> -> string)
    ensures Replay(s, Presses(ks), hotkeyName) ==
      s.(currentKeys := s.currentKeys + Keys(ks), allKeys := s.allKeys + Keys(ks))
    decreases |ks|
  {
    if ks != [] {
      assert Presses(ks)[1..] == Presses(ks[1..]);
      PressAll(HandleHook(s, KeyDown(ks[0]), hotkeyName), ks[1..], hotkeyName);
      assert Keys(ks) == {ks[0]} + Keys(ks[1..]) by {
        forall k | k in Keys(ks) ensures k in {ks[0]} + Keys(ks[1..]) {
          var i :| 0 <= i < |ks| && ks[i] == k;
          if i > 0 { assert ks[1..][i - 1] == k; }
        }
      }
    } else {
      assert Keys(ks) == {};
    }
  }

  /** Releasing every held key, each once: nothing finishes before the last
      release, which records the name of all keys seen, resets the seen
      keys, removes the hook and sets the done flag. */
  lemma {:induction false} ReleaseAll(s: SaverState, rs: seq<string>, hotkeyName: set<string> -> string)
    requires rs != [] && Distinct(rs) && s.currentKeys == Keys(rs)
    ensures Replay(s, Releases(rs), hotkeyName) ==
      s.(currentKeys := {}, hotkeyString := hotkeyName(s.allKeys), allKeys := {}, hooked := false, done := true)
    decreases |rs|
  {
    assert Releases(rs)[1..] == Releases(rs[1..]);
    var held := s.currentKeys - {rs[0]};
    assert held == Keys(rs[1..]) by {
      forall k | k in held ensures k in Keys(rs[1..]) {
        var i :| 0 <= i < |rs| && rs[i] == k;
        assert i != 0;
        assert rs[1..][i - 1] == k;
      }
      forall k | k in Keys(rs[1..]) ensures k in held {
        var i :| 0 <= i < |rs[1..]| && rs[1..][i] == k;
        assert rs[i + 1] == k && rs[0] != rs[i + 1];
      }
    }
    if |rs| == 1 {
      assert Keys(rs[1..]) == {};
    } else {
      assert rs[1] in Keys(rs[1..]) by { assert rs[1..][0] == rs[1]; }
      var s' := HandleHook(s, KeyUp(rs[0]), hotkeyName);
      ReleaseAll(s', rs[1..], hotkeyName);
    }
  }

  /** Recording a chord: from a saver holding no key, pressing the keys
      `ks` and then releasing each of them once, in any order `rs`, records
      the name of exactly the keys seen, and leaves the saver done, unhooked,
      with no key held or seen. */
  lemma ChordRecorded(s: SaverState, ks: seq<string>, rs: seq<string>, hotkeyName: set<string> -> string)
    requires s.currentKeys == {} && ks != [] && Distinct(rs) && Keys(rs) == Keys(ks)
    ensures var t := Replay(s, Presses(ks) + Releases(rs), hotkeyName);
            && t.done && !t.hooked && t.currentKeys == {} && t.allKeys == {}
            && t.hotkeyString == hotkeyName(s.allKeys + Keys(ks))
  {
    ReplayAppend(s, Presses(ks), Releases(rs), hotkeyName);
    PressAll(s, ks, hotkeyName);
    assert ks[0] in Keys(ks);
    assert rs != [];
    ReleaseAll(Replay(s, Presses(ks), hotkeyName), rs, hotkeyName);
  }

  /** `HotkeySaver` (src/hotkeysaver.py). */
  class HotkeySaver {
    var currentKeys: set<string>
    var allKeys: set<string>
    var hotkeyString: string
    var done: bool
    var hooked: bool

    function State(): SaverState
      reads this
    {
      SaverState(currentKeys, allKeys, hotkeyString, done, hooked)
    }

    ghost predicate Valid()
      reads this
    {
      Inv(State())
    }

    constructor()
      ensures Valid() && State() == Fresh
    {
      currentKeys := {};
      allKeys := {};
      hotkeyString := "";
      done := false;
      hooked := false;
    }

    method HandleEvent(e: KeyEvent, hotkeyName: set<string> -> string)
      requires Valid()
      modifies this
      ensures Valid() && State() == HandleHook(old(State()), e, hotkeyName)
    {
      match e
      case KeyDown(k) =>
        currentKeys := currentKeys + {k};
        allKeys := allKeys + {k};
      case KeyUp(k) =>
        currentKeys := currentKeys - {k};
        if currentKeys == {} {
          hotkeyString := hotkeyName(allKeys);
          allKeys := {};
          hooked := false;
          done := true;
        }
    }

    /** The first step of `record_hotkey`: install the hook. */
    method Hook()
      modifies this
      ensures hooked
      ensures currentKeys == old(currentKeys) && allKeys == old(allKeys)
      ensures hotkeyString == old(hotkeyString) && done == old(done)
    {
      hooked := true;
    }

    /** The rest of `record_hotkey`, once its wait on the done flag returns:
        clear the flag and give back the recorded hotkey in upper case. */
    method AwaitHotkey() returns (hotkey: string)
      requires done
      modifies this
      ensures hotkey == Text.Upper(hotkeyString) && !done
      ensures currentKeys == old(currentKeys) && allKeys == old(allKeys)
      ensures hotkeyString == old(hotkeyString) && hooked == old(hooked)
    {
      done := false;
      hotkey := Text.Upper(hotkeyString);
    }
  }
}
