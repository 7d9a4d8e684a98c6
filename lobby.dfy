/**
 * `generateRandomLobby`: five draws from a 36-character alphabet. The random
 * draws `Math.floor(Math.random() * 36)` are passed in, one per iteration.
 */
module Lobby {

  const Alphabet: string := "abcdefghijklmnopqrstuvwxyz1234567890"

  /** `chars.charAt(i)`: the character at `i`, or the empty string out of range. */
  function CharAt(i: int): (t: string)
    ensures |t| <= 1
    ensures 0 <= i < |Alphabet| <==> |t| == 1
    ensures 0 <= i < |Alphabet| ==> t == [Alphabet[i]]
  {
    if 0 <= i < |Alphabet| then [Alphabet[i]] else ""
  }

  /** The text the loop builds from the given draws. */
  function LobbyText(draws: seq<int>): string {
    if draws == [] then "" else LobbyText(draws[..|draws| - 1]) + CharAt(draws[|draws| - 1])
  }

  predicate InAlphabet(c: char) {
    'a' <= c <= 'z' || '0' <= c <= '9'
  }

  /** With every draw in range, each draw contributes exactly its character. */
  lemma {:induction false} LobbyTextInRange(draws: seq<int>)
    requires forall k :: 0 <= k < |draws| ==> 0 <= draws[k] < |Alphabet|
    ensures |LobbyText(draws)| == |draws|
    ensures forall k :: 0 <= k < |draws| ==> LobbyText(draws)[k] == Alphabet[draws[k]]
    ensures forall k :: 0 <= k < |draws| ==> InAlphabet(LobbyText(draws)[k])
  {
    if draws != [] {
      var init := draws[..|draws| - 1];
      var last := draws[|draws| - 1];
      LobbyTextInRange(init);
      AlphabetIsLettersAndDigits();
      assert LobbyText(draws) == LobbyText(init) + [Alphabet[last]];
      forall k | 0 <= k < |draws|
        ensures LobbyText(draws)[k] == Alphabet[draws[k]]
      {
        if k < |init| {
          assert draws[k] == init[k];
        }
      }
    }
  }

  /** Every character of the alphabet is a lower-case letter or a digit. */
  lemma AlphabetIsLettersAndDigits()
    ensures forall k :: 0 <= k < |Alphabet| ==> InAlphabet(Alphabet[k])
  {
  }

  /** The loop of `generateRandomLobby`, one draw per iteration. */
  method GenerateRandomLobby(draws: seq<int>) returns (out: string)
    requires |draws| == 5
    ensures out == LobbyText(draws)
    ensures (forall k :: 0 <= k < 5 ==> 0 <= draws[k] < 36) ==>
              |out| == 5 && forall k :: 0 <= k < 5 ==> out[k] == Alphabet[draws[k]] && InAlphabet(out[k])
  {
    out := "";
    var i := 0;
    while i < 5
      invariant 0 <= i <= 5
      invariant out == LobbyText(draws[..i])
    {
      assert draws[..i + 1][..i] == draws[..i];
      out := out + CharAt(draws[i]);
      i := i + 1;
    }
    assert draws[..5] == draws;
    if forall k :: 0 <= k < 5 ==> 0 <= draws[k] < 36 {
      LobbyTextInRange(draws);
    }
  }
}
