/** The Konami-code listener of the enhanced page
    (client/src/pages/Home-Enhanced.tsx): a buffer of the last ten keys
    pressed anywhere in the window, emptied when it spells the code. The
    functions take the code as a parameter so that the lemmas hold for any
    ten-key code whose last key is not repeated; `KonamiCode` is the
    page's. */
module Konami {

  /** ↑ ↑ ↓ ↓ ← → ← → b a, as key names. */
  const KonamiCode: seq<string> :=
    ["ArrowUp", "ArrowUp", "ArrowDown", "ArrowDown", "ArrowLeft", "ArrowRight", "ArrowLeft", "ArrowRight", "b", "a"]

  /** `keys.slice(-10)`: the last ten keys, or all of them when fewer. */
  function LastTen(keys: seq<string>): (r: seq<string>)
    ensures |r| == if |keys| < 10 then |keys| else 10
    ensures r == keys[|keys| - |r|..]
  {
    if |keys| <= 10 then keys else keys[|keys| - 10..]
  }

  /** Whether the key press completes the code. */
  predicate Hit(buffer: seq<string>, key: string, code: seq<string>) {
    LastTen(buffer + [key]) == code
  }

  /** The buffer after one key press: the last ten keys, emptied when they
      spell the code. */
  function Next(buffer: seq<string>, key: string, code: seq<string>): (r: seq<string>)
    ensures |r| <= 10
    ensures r != code
    ensures Hit(buffer, key, code) <==> r == [] && code != []
    ensures !Hit(buffer, key, code) ==>
              && |r| == (if |buffer| < 9 then |buffer| + 1 else 10)
              && r == (buffer + [key])[|buffer| + 1 - |r|..]
              && r[|r| - 1] == key
  {
    var keys := LastTen(buffer + [key]);
    if keys == code then [] else keys
  }

  /** The buffer after a run of key presses. */
  function Feed(buffer: seq<string>, keys: seq<string>, code: seq<string>): seq<string>
    decreases |keys|
  {
    if keys == [] then buffer else Next(Feed(buffer, keys[..|keys| - 1], code), keys[|keys| - 1], code)
  }

  /** `b` ends with the keys `p`. */
  predicate EndsWith(b: seq<string>, p: seq<string>) {
    |p| <= |b| && b[|b| - |p|..] == p
  }

  /** A ten-key code whose last key occurs nowhere else in it. */
  predicate EndsUniquely(code: seq<string>) {
    |code| == 10 && forall j :: 0 <= j < 9 ==> code[j] != code[9]
  }

  lemma KonamiCodeEndsUniquely()
    ensures EndsUniquely(KonamiCode)
  {
  }

  /** One more key of the code after its first `k - 1` keys leaves the
      first `k` keys at the end of the window. */
  lemma {:induction false} Step(b: seq<string>, k: nat, code: seq<string>)
    requires |code| == 10 && 1 <= k <= 10
    requires EndsWith(b, code[..k - 1])
    ensures EndsWith(LastTen(b + [code[k - 1]]), code[..k])
  {
    var key := code[k - 1];
    var bk := b + [key];
    var w := LastTen(bk);
    var m := |bk| - |w|;
    assert |w| >= k;
    forall i | 0 <= i < k ensures w[|w| - k + i] == code[i] {
      assert w[|w| - k + i] == bk[m + |w| - k + i];
      if i < k - 1 {
        assert bk[|bk| - k + i] == b[|b| - (k - 1) + i];
        assert b[|b| - (k - 1)..][i] == code[..k - 1][i];
      }
    }
    assert w[|w| - k..] == code[..k];
  }

  /** Typing the first `k` keys of the code (k < 10), from any buffer the
      page can hold, never completes it early and leaves those keys at the
      end of the buffer. */
  lemma {:induction false} Prefix(buffer: seq<string>, k: nat, code: seq<string>)
    requires EndsUniquely(code)
    requires |buffer| <= 10 && k <= 9
    ensures |Feed(buffer, code[..k], code)| <= 10
    ensures EndsWith(Feed(buffer, code[..k], code), code[..k])
    ensures forall j :: 0 <= j < k ==> !Hit(Feed(buffer, code[..j], code), code[j], code)
  {
    if k > 0 {
      Prefix(buffer, k - 1, code);
      var b := Feed(buffer, code[..k - 1], code);
      var key := code[k - 1];
      Step(b, k, code);
      var w := LastTen(b + [key]);
      assert w != code by {
        assert w[|w| - 1] == key;
      }
      assert code[..k][..k - 1] == code[..k - 1];
      assert Feed(buffer, code[..k], code) == w;
      forall j | 0 <= j < k
        ensures !Hit(Feed(buffer, code[..j], code), code[j], code)
      {
        if j == k - 1 {
          assert !Hit(b, key, code);
        }
      }
    }
  }

  /** The last key of the code completes it, whatever the buffer held
      before, and empties the buffer. */
  lemma Completes(buffer: seq<string>, code: seq<string>)
    requires EndsUniquely(code) && |buffer| <= 10
    ensures Hit(Feed(buffer, code[..9], code), code[9], code)
    ensures Feed(buffer, code, code) == []
  {
    var b := Feed(buffer, code[..9], code);
    assert LastTen(b + [code[9]]) == code by {
      Prefix(buffer, 9, code);
      Step(b, 10, code);
      assert code[..10] == code;
    }
    assert Feed(buffer, code, code) == Next(b, code[9], code) by {
      assert code[..|code| - 1] == code[..9];
    }
  }

  /** Typing ↑ ↑ ↓ ↓ ← → ← → b a from any buffer the page can hold: no key
      before the last completes the code, the last one does, and the
      buffer ends empty. */
  lemma KonamiTyped(buffer: seq<string>)
    requires |buffer| <= 10
    ensures forall j :: 0 <= j < 9 ==> !Hit(Feed(buffer, KonamiCode[..j], KonamiCode), KonamiCode[j], KonamiCode)
    ensures Hit(Feed(buffer, KonamiCode[..9], KonamiCode), "a", KonamiCode)
    ensures Feed(buffer, KonamiCode, KonamiCode) == []
  {
    KonamiCodeEndsUniquely();
    Prefix(buffer, 9, KonamiCode);
    Completes(buffer, KonamiCode);
  }
}
