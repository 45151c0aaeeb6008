/**
 * The key-state tracker (src/game/utils/inputHandler.ts, `createInputHandler`).
 *
 * `pressedKeys` is a JavaScript Map from key code to `true`, iterated in
 * insertion order; it is modelled as the sequence of its keys.  Every value
 * ever stored is `true`, so the `!val` test in `run` never skips a key and is
 * not modelled.  A handler is an arbitrary closure: here it is a value of the
 * type parameter A, and "invoking" it means returning it, in order, to the
 * caller, which then performs it.
 */
module Input {

  const Escape := 27
  const Space := 32
  const LeftArrow := 37
  const RightArrow := 39
  const KeyL := 76

  predicate Distinct(s: seq<int>) {
    forall i, j :: 0 <= i < j < |s| ==> s[i] != s[j]
  }

  /** The keys of s other than k, in their order. */
  function Without(s: seq<int>, k: int): seq<int> {
    if s == [] then [] else (if s[0] == k then [] else [s[0]]) + Without(s[1..], k)
  }

  /** Deleting a key commutes with concatenation: the other keys keep their relative order. */
  lemma {:induction false} WithoutAppend(a: seq<int>, b: seq<int>, k: int)
    ensures Without(a + b, k) == Without(a, k) + Without(b, k)
  {
    if a == [] {
      assert a + b == b;
    } else {
      assert (a + b)[1..] == a[1..] + b;
      WithoutAppend(a[1..], b, k);
    }
  }

  lemma {:induction false} WithoutMembers(s: seq<int>, k: int)
    ensures forall x :: x in Without(s, k) <==> x in s && x != k
    ensures Distinct(s) ==> Distinct(Without(s, k))
    ensures k !in s ==> Without(s, k) == s
  {
    if s != [] {
      WithoutMembers(s[1..], k);
      if Distinct(s) {
        assert Distinct(s[1..]) by {
          forall i, j | 0 <= i < j < |s[1..]| ensures s[1..][i] != s[1..][j] {
            assert s[1..][i] == s[i + 1] && s[1..][j] == s[j + 1];
          }
        }
        var w := Without(s[1..], k);
        assert s[0] !in s[1..] by {
          forall i | 0 <= i < |s[1..]| ensures s[1..][i] != s[0] {
            assert s[1..][i] == s[i + 1];
          }
        }
        assert s[0] !in w;
        var r := (if s[0] == k then [] else [s[0]]) + w;
        forall i, j | 0 <= i < j < |r| ensures r[i] != r[j] {
          if s[0] != k && i == 0 {
            assert r[j] == w[j - 1] && r[j] in w;
          } else if s[0] != k {
            assert r[i] == w[i - 1] && r[j] == w[j - 1];
          }
        }
      }
      if k !in s {
        assert s == [s[0]] + s[1..];
      }
    }
  }

  /** The held-key handlers that `run` invokes for the pressed keys `keys`, in order. */
  function HeldActions<A>(keys: seq<int>, handlers: map<int, A>): seq<A> {
    if keys == [] then []
    else (if keys[0] in handlers then [handlers[keys[0]]] else []) + HeldActions(keys[1..], handlers)
  }

  /**
   * `run` is determined key by key: the keys pressed earlier are served
   * first, and a key contributes its handler once, or nothing if it has none.
   */
  lemma {:induction false} HeldActionsAppend<A>(a: seq<int>, b: seq<int>, handlers: map<int, A>)
    ensures HeldActions(a + b, handlers) == HeldActions(a, handlers) + HeldActions(b, handlers)
  {
    if a != [] {
      assert (a + b)[1..] == a[1..] + b;
      HeldActionsAppend(a[1..], b, handlers);
    } else {
      assert a + b == b;
    }
  }

  lemma HeldActionsSingle<A>(k: int, handlers: map<int, A>)
    ensures HeldActions([k], handlers) == if k in handlers then [handlers[k]] else []
  {
    assert [k][1..] == [];
  }

  /**
   * Only registered held-key handlers are ever invoked, at most one per
   * pressed key, and exactly one per key when every pressed key has one.
   */
  lemma {:induction false} HeldActionsBound<A>(keys: seq<int>, handlers: map<int, A>)
    ensures forall x :: x in HeldActions(keys, handlers) ==> x in handlers.Values
    ensures |HeldActions(keys, handlers)| <= |keys|
    ensures |HeldActions(keys, handlers)| == |keys| <==> forall i :: 0 <= i < |keys| ==> keys[i] in handlers
  {
    if keys != [] {
      HeldActionsBound(keys[1..], handlers);
      var rest := keys[1..];
      if forall i :: 0 <= i < |keys| ==> keys[i] in handlers {
        assert forall i :: 0 <= i < |rest| ==> rest[i] in handlers by {
          forall i | 0 <= i < |rest| ensures rest[i] in handlers { assert rest[i] == keys[i + 1]; }
        }
      } else if keys[0] in handlers {
        var i :| 0 <= i < |keys| && keys[i] !in handlers;
        assert rest[i - 1] == keys[i];
      }
    }
  }

  class InputHandler<A> {
    var pressedKeys: seq<int>
    var keyHandlers: map<int, A>
    var keySingleHandlers: map<int, A>

    /** A JavaScript Map holds each key once. */
    predicate Valid()
      reads this
    {
      Distinct(pressedKeys)
    }

    /** `createInputHandler()`: no key held, no handler registered. */
    constructor ()
      ensures Valid()
      ensures pressedKeys == [] && keyHandlers == map[] && keySingleHandlers == map[]
    {
      pressedKeys := [];
      keyHandlers := map[];
      keySingleHandlers := map[];
    }

    /** `onKeyDown`: marks the key as held; a key already held keeps its place and is not added twice. */
    method OnKeyDown(code: int)
      requires Valid()
      modifies this
      ensures Valid()
      ensures code in pressedKeys
      ensures pressedKeys == if code in old(pressedKeys) then old(pressedKeys) else old(pressedKeys) + [code]
      ensures keyHandlers == old(keyHandlers) && keySingleHandlers == old(keySingleHandlers)
    {
      if code !in pressedKeys {
        pressedKeys := pressedKeys + [code];
      }
    }

    /**
     * `onKeyUp`: forgets the key, then invokes its single handler exactly
     * once if one is registered, and nothing otherwise.
     */
    method OnKeyUp(code: int) returns (invoked: seq<A>)
      requires Valid()
      modifies this
      ensures Valid()
      ensures pressedKeys == Without(old(pressedKeys), code)
      ensures code !in pressedKeys
      ensures invoked == if code in keySingleHandlers then [keySingleHandlers[code]] else []
      ensures keyHandlers == old(keyHandlers) && keySingleHandlers == old(keySingleHandlers)
    {
      WithoutMembers(pressedKeys, code);
      pressedKeys := Without(pressedKeys, code);
      if code in keySingleHandlers {
        invoked := [keySingleHandlers[code]];
      } else {
        invoked := [];
      }
    }

    /**
     * `run`: for every held key, in the order the keys went down, invokes
     * its held-key handler if it has one.  Single handlers are never invoked
     * and nothing is changed, so every call does the same.
     */
    method Run() returns (invoked: seq<A>)
      ensures invoked == HeldActions(pressedKeys, keyHandlers)
    {
      invoked := [];
      var i := 0;
      while i < |pressedKeys|
        invariant 0 <= i <= |pressedKeys|
        invariant invoked == HeldActions(pressedKeys[..i], keyHandlers)
      {
        var key := pressedKeys[i];
        HeldActionsAppend(pressedKeys[..i], [key], keyHandlers);
        HeldActionsSingle(key, keyHandlers);
        assert pressedKeys[..i + 1] == pressedKeys[..i] + [key];
        if key in keyHandlers {
          invoked := invoked + [keyHandlers[key]];
        }
        i := i + 1;
      }
      assert pressedKeys[..i] == pressedKeys;
    }
  }
}
