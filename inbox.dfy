/** A list of messages in send order, whose sticky messages stay unread. */
module Inbox {
  import opened Messages

  /** The sticky messages of `ms`, in order. */
  function Sticky(ms: seq<Message>): (r: seq<Message>)
    ensures |r| <= |ms|
    ensures forall i :: 0 <= i < |r| ==> r[i].sticky
    ensures forall m :: m in r <==> m in ms && m.sticky
  {
    if ms == [] then []
    else Sticky(ms[..|ms| - 1]) + (if ms[|ms| - 1].sticky then [ms[|ms| - 1]] else [])
  }

  /** Filtering the concatenation filters each part. */
  lemma {:induction false} StickyConcat(a: seq<Message>, b: seq<Message>)
    ensures Sticky(a + b) == Sticky(a) + Sticky(b)
    decreases |b|
  {
    if b == [] {
      assert a + b == a;
    } else {
      var front := b[..|b| - 1];
      assert (a + b)[..|a + b| - 1] == a + front;
      StickyConcat(a, front);
    }
  }

  /** A sticky message joins the unread list at its end; any other leaves it unchanged. */
  lemma StickyAfterSend(ms: seq<Message>, m: Message)
    ensures Sticky(ms + [m]) == Sticky(ms) + (if m.sticky then [m] else [])
  {
    assert (ms + [m])[..|ms|] == ms;
  }

  /** A list of sticky messages is its own unread list. */
  lemma {:induction false} StickyAll(ms: seq<Message>)
    requires forall i :: 0 <= i < |ms| ==> ms[i].sticky
    ensures Sticky(ms) == ms
  {
    if ms != [] {
      var front := ms[..|ms| - 1];
      StickyAll(front);
      assert ms == front + [ms[|ms| - 1]];
    }
  }

  class Inbox {
    var messages: seq<Message>

    constructor()
      ensures messages == []
    {
      messages := [];
    }

    /** `send`: append the message. */
    method Send(msg: Message)
      modifies this
      ensures messages == old(messages) + [msg]
    {
      messages := messages + [msg];
    }

    /** `unread`: the sticky messages, in send order; reading marks nothing. */
    function Unread(): (r: seq<Message>)
      reads this
      ensures forall m :: m in r <==> m in messages && m.sticky
    {
      Sticky(messages)
    }
  }
}
