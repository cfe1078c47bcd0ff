/**
 * The progress indicator (components/Loader.tsx): which message it shows
 * first, and the rotation through the fixed loading messages that a
 * repeating timer drives when no `message` prop is given. Each timer tick is
 * one atomic call of `Loader.Tick`.
 */
module Loader {
  import opened JsValues
  import opened Types

  /** Shorthand for the fixed list of loading messages. */
  const MESSAGES := VIDEO_GENERATION_LOADING_MESSAGES

  /** No entry of the list appears twice. */
  predicate Distinct(s: seq<string>) {
    forall i, j :: 0 <= i < j < |s| ==> s[i] != s[j]
  }

  lemma MessagesDistinct()
    ensures |MESSAGES| == 10 && Distinct(MESSAGES)
  {
  }

  /** The state initialiser: `message || messages[0]`. */
  function InitialMessage(messages: seq<string>, message: Option<string>): (r: string)
    requires |messages| > 0
    ensures Truthy(message) ==> r == message.value
    ensures !Truthy(message) ==> r == messages[0]
  {
    OrElse(message, messages[0])
  }

  /** The rotation updater: the message after `prev`, always one of the list. */
  function NextMessage(messages: seq<string>, prev: string): (r: string)
    requires |messages| > 0
    ensures r in messages
  {
    messages[(IndexOf(messages, prev) + 1) % |messages|]
  }

  /** In a list without repeats, each entry is followed by the next one, cyclically. */
  lemma NextOfListed(messages: seq<string>, i: nat)
    requires Distinct(messages) && i < |messages|
    ensures NextMessage(messages, messages[i]) == messages[(i + 1) % |messages|]
  {
    var k := IndexOf(messages, messages[i]);
    assert messages[k] == messages[i];
  }

  /** The last message wraps around to the first. */
  lemma LastWrapsToFirst(messages: seq<string>)
    requires Distinct(messages) && |messages| > 0
    ensures NextMessage(messages, messages[|messages| - 1]) == messages[0]
  {
    var n := |messages|;
    NextOfListed(messages, n - 1);
    assert (n - 1 + 1) % n == 0;
  }

  /** A message that is not in the list (index -1) is followed by the first one. */
  lemma UnlistedGoesToFirst(messages: seq<string>, prev: string)
    requires |messages| > 0 && prev !in messages
    ensures NextMessage(messages, prev) == messages[0]
  {
  }

  /** The message after `n` ticks starting from `m`. */
  function Rotate(messages: seq<string>, m: string, n: nat): string
    requires |messages| > 0
    decreases n
  {
    if n == 0 then m else Rotate(messages, NextMessage(messages, m), n - 1)
  }

  /** The position after `n` ticks starting at position `k` of a list of `len` entries. */
  function TickIndex(len: nat, k: nat, n: nat): (r: nat)
    requires k < len
    ensures r < len
    decreases n
  {
    if n == 0 then k else TickIndex(len, if k + 1 == len then 0 else k + 1, n - 1)
  }

  lemma ModOfSmall(x: int, m: int)
    requires 0 <= x < m
    ensures x % m == x
  {
  }

  /** In a list without repeats, one tick moves one position on, wrapping at the end. */
  lemma NextPosition(messages: seq<string>, k: nat)
    requires Distinct(messages) && k < |messages|
    ensures NextMessage(messages, messages[k]) == messages[if k + 1 == |messages| then 0 else k + 1]
  {
    NextOfListed(messages, k);
    if k + 1 == |messages| {
      LastWrapsToFirst(messages);
    } else {
      ModOfSmall(k + 1, |messages|);
    }
  }

  /** In a list without repeats, ticking from an entry follows the positions of `TickIndex`. */
  lemma {:induction false} RotateFollowsTickIndex(messages: seq<string>, k: nat, n: nat)
    requires Distinct(messages) && k < |messages|
    ensures Rotate(messages, messages[k], n) == messages[TickIndex(|messages|, k, n)]
    decreases n
  {
    if n > 0 {
      var next := if k + 1 == |messages| then 0 else k + 1;
      NextPosition(messages, k);
      RotateFollowsTickIndex(messages, next, n - 1);
    }
  }

  /** Before the end of the list, n ticks move n positions forward. */
  lemma {:induction false} TickIndexForward(len: nat, k: nat, n: nat)
    requires k + n < len
    ensures TickIndex(len, k, n) == k + n
    decreases n
  {
    if n > 0 {
      TickIndexForward(len, k + 1, n - 1);
    }
  }

  /** Ticking a then b times is ticking a + b times. */
  lemma {:induction false} TickIndexAdd(len: nat, k: nat, a: nat, b: nat)
    requires k < len
    ensures TickIndex(len, k, a + b) == TickIndex(len, TickIndex(len, k, a), b)
    decreases a
  {
    if a > 0 {
      TickIndexAdd(len, if k + 1 == len then 0 else k + 1, a - 1, b);
    }
  }

  /** As many ticks as there are positions return to the start. */
  lemma TickIndexFullCycle(len: nat, k: nat)
    requires k < len
    ensures TickIndex(len, k, len) == k
  {
    TickIndexForward(len, k, len - 1 - k);
    TickIndexAdd(len, k, len - 1 - k, 1);
    TickIndexForward(len, 0, k);
    TickIndexAdd(len, k, len - k, k);
  }

  /** A full cycle of ticks returns to the starting message. */
  lemma FullCycle(messages: seq<string>, i: nat)
    requires Distinct(messages) && i < |messages|
    ensures Rotate(messages, messages[i], |messages|) == messages[i]
  {
    RotateFollowsTickIndex(messages, i, |messages|);
    TickIndexFullCycle(|messages|, i);
  }

  /**
   * One mounted loader. `message` is the current prop, `currentMessage` the
   * state shown, `rotating` whether the rotation timer is armed.
   */
  class Loader {
    var message: Option<string>
    var currentMessage: string
    var rotating: bool

    /** With a prop, the prop is shown and nothing rotates. */
    ghost predicate PropShown()
      reads this
    {
      Truthy(message) ==> currentMessage == message.value && !rotating
    }

    /** Mounting: the initial state, then the effect arms the timer when there is no prop. */
    constructor (message: Option<string>)
      ensures this.message == message
      ensures currentMessage == InitialMessage(MESSAGES, message)
      ensures rotating == !Truthy(message)
      ensures PropShown()
    {
      this.message := message;
      currentMessage := OrElse(message, MESSAGES[0]);
      rotating := !Truthy(message);
    }

    /** One firing of the rotation timer. */
    method Tick()
      requires rotating
      modifies this
      ensures currentMessage == NextMessage(MESSAGES, old(currentMessage))
      ensures currentMessage in MESSAGES
      ensures message == old(message) && rotating
    {
      currentMessage := NextMessage(MESSAGES, currentMessage);
    }

    /**
     * A new `message` prop: the effect's cleanup clears the timer, then the
     * effect runs again. An unchanged prop does not re-run the effect.
     */
    method SetMessage(m: Option<string>)
      modifies this
      ensures message == m
      ensures m == old(message) ==> currentMessage == old(currentMessage) && rotating == old(rotating)
      ensures m != old(message) && Truthy(m) ==> currentMessage == m.value && !rotating
      ensures m != old(message) && !Truthy(m) ==> currentMessage == old(currentMessage) && rotating
      ensures old(PropShown()) ==> PropShown()
    {
      if m != message {
        message := m;
        rotating := false;
        if !Truthy(m) {
          rotating := true;
        } else {
          currentMessage := m.value;
        }
      }
    }

    /** Unmounting clears the rotation timer. */
    method Unmount()
      modifies this
      ensures !rotating
      ensures message == old(message) && currentMessage == old(currentMessage)
    {
      rotating := false;
    }
  }
}
