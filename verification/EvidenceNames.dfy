/** When a final key holds bytes that do not hash to its name, over every run of the evidence system. */
module EvidenceNames {
  import opened EvidenceKeys
  import opened EvidenceStorage
  import opened EvidenceSystem

  ghost predicate Trace(w: World, states: seq<System>, actions: seq<Action>) {
    |states| == |actions| + 1 &&
    forall i | 0 <= i < |actions| :: Enabled(states[i], actions[i]) && states[i + 1] == Next(w, states[i], actions[i])
  }

  predicate Misnamed(w: World, s: System, key: Key) {
    key.Finalised? && key in s.store && w.sha(s.store[key].body) != key.name
  }

  /** The action copies what is in staging to the key. */
  predicate CopiesTo(s: System, a: Action, key: Key) {
    a.Advance? && a.e in s.running && s.running[a.e].pc == Copy && Staging(a.e) in s.store &&
    key == FinalKey(a.e, s.running[a.e].checksum)
  }

  predicate CopiesMisnamed(w: World, s: System, a: Action, key: Key) {
    CopiesTo(s, a, key) && w.sha(s.store[Staging(a.e)].body) != key.name
  }

  /** The action writes or deletes the key. */
  predicate Touches(s: System, a: Action, key: Key) {
    CopiesTo(s, a, key) || a == Delete(key)
  }

  /** A key named by a digest is written by copying and in no other way. */
  lemma {:induction false} OnlyCopiesWrite(w: World, s: System, a: Action, key: Key)
    requires Enabled(s, a) && key.Finalised? && Digest(key.name)
    ensures
      var t := Next(w, s, a).store;
      if CopiesTo(s, a, key) then key in t && t[key] == s.store[Staging(a.e)]
      else if a == Delete(key) then key !in t
      else Value(t, key) == Value(s.store, key)
  {
  }

  lemma {:induction false} MisnamedNext(w: World, s: System, a: Action, key: Key)
    requires Enabled(s, a) && key.Finalised? && Digest(key.name)
    ensures Misnamed(w, Next(w, s, a), key) <==> CopiesMisnamed(w, s, a, key) || (Misnamed(w, s, key) && !Touches(s, a, key))
  {
    OnlyCopiesWrite(w, s, a, key);
  }

  /** Some copy of a misnamed staged object to the key was not followed by another write or deletion of it. */
  ghost predicate LastCopiedMisnamed(w: World, states: seq<System>, actions: seq<Action>, key: Key, i: nat)
    requires Trace(w, states, actions) && i <= |actions|
  {
    exists j | 0 <= j < i :: CopiesMisnamed(w, states[j], actions[j], key) && Untouched(states, actions, key, j, i)
  }

  ghost predicate Untouched(states: seq<System>, actions: seq<Action>, key: Key, after: nat, to: nat)
    requires to <= |actions| <= |states|
  {
    forall k | after < k < to :: !Touches(states[k], actions[k], key)
  }

  lemma {:induction false} UntouchedNext(states: seq<System>, actions: seq<Action>, key: Key, j: nat, i: nat)
    requires j < i < |actions| <= |states|
    ensures Untouched(states, actions, key, j, i + 1) <==>
      Untouched(states, actions, key, j, i) && !Touches(states[i], actions[i], key)
  {
    if Untouched(states, actions, key, j, i) && !Touches(states[i], actions[i], key) {
      forall k | j < k < i + 1 ensures !Touches(states[k], actions[k], key) {
        assert k < i || k == i;
      }
    }
  }

  lemma {:induction false} LastCopiedNext(w: World, states: seq<System>, actions: seq<Action>, key: Key, i: nat)
    requires Trace(w, states, actions) && i < |actions|
    ensures LastCopiedMisnamed(w, states, actions, key, i + 1) <==>
      CopiesMisnamed(w, states[i], actions[i], key) ||
      (LastCopiedMisnamed(w, states, actions, key, i) && !Touches(states[i], actions[i], key))
  {
    forall j | 0 <= j < i {
      UntouchedNext(states, actions, key, j, i);
    }
    assert Untouched(states, actions, key, i, i + 1);
  }

  /**
   A key named by a digest holds other bytes exactly when the last action to write or delete it copied
   a staged object that did not hash to the name.
   */
  lemma {:induction false} MisnamedExactlyWhenCopied(
    w: World, states: seq<System>, actions: seq<Action>, key: Key, i: nat)
    requires Trace(w, states, actions) && i <= |actions| && key.Finalised? && Digest(key.name)
    requires !Misnamed(w, states[0], key)
    ensures Misnamed(w, states[i], key) <==> LastCopiedMisnamed(w, states, actions, key, i)
    decreases i
  {
    if i > 0 {
      MisnamedExactlyWhenCopied(w, states, actions, key, i - 1);
      MisnamedNext(w, states[i - 1], actions[i - 1], key);
      LastCopiedNext(w, states, actions, key, i - 1);
    }
  }
}
