/** console.ts: the bounded log of `[text, className]` console messages. */
module Console {
  import opened Util

  const MAX_MESSAGE_LINES := 100

  /** One log entry, `[text, className]`. */
  datatype Message = Message(text: string, className: string)

  /** The array `a.splice(0, deleteCount)` leaves behind: the count is first
      clamped into [0, |a|], so a negative count removes nothing and a count
      past the end removes everything. */
  function SpliceFront<T>(a: seq<T>, deleteCount: int): (r: seq<T>)
    ensures deleteCount <= 0 ==> r == a
    ensures deleteCount >= |a| ==> r == []
    ensures 0 <= deleteCount <= |a| ==> |r| == |a| - deleteCount
    ensures a == a[..|a| - |r|] + r
  {
    a[Clamp(deleteCount, 0, |a|)..]
  }

  /** The newest n elements of s, in order: a reference definition of a bounded log. */
  function Newest<T>(s: seq<T>, n: nat): seq<T>
    decreases |s|
  {
    if |s| <= n then s else Newest(s[1..], n)
  }

  lemma {:induction false} NewestIsSuffix<T>(s: seq<T>, n: nat)
    ensures Newest(s, n) == s[|s| - (if |s| < n then |s| else n)..]
    decreases |s|
  {
    if |s| > n {
      NewestIsSuffix(s[1..], n);
      assert s[1..][|s| - 1 - n..] == s[|s| - n..];
    }
  }

  /** The log after `print`: the entry is pushed, then all but the newest
      MAX_MESSAGE_LINES entries are spliced off the front. */
  function Printed(log: seq<Message>, m: Message): seq<Message>
  {
    var pushed := log + [m];
    SpliceFront(pushed, |pushed| - MAX_MESSAGE_LINES)
  }

  /** `print` keeps exactly the newest MAX_MESSAGE_LINES entries of old ++ [entry]. */
  lemma PrintedIsNewest(log: seq<Message>, m: Message)
    ensures Printed(log, m) == Newest(log + [m], MAX_MESSAGE_LINES)
  {
    NewestIsSuffix(log + [m], MAX_MESSAGE_LINES);
  }

  /** What `print` promises: a bounded log ending in the new entry; below the
      bound nothing is dropped, at the bound exactly the oldest entry goes. */
  lemma PrintedFacts(log: seq<Message>, m: Message)
    ensures |Printed(log, m)| <= MAX_MESSAGE_LINES
    ensures |Printed(log, m)| > 0 && Printed(log, m)[|Printed(log, m)| - 1] == m
    ensures |log| < MAX_MESSAGE_LINES ==> Printed(log, m) == log + [m]
    ensures |log| == MAX_MESSAGE_LINES ==> Printed(log, m) == log[1..] + [m]
  {
    var pushed := log + [m];
    var count := Clamp(|pushed| - MAX_MESSAGE_LINES, 0, |pushed|);
    assert Printed(log, m) == pushed[count..];
    if |log| < MAX_MESSAGE_LINES {
      assert count == 0;
    } else if |log| == MAX_MESSAGE_LINES {
      assert count == 1;
      assert pushed[1..] == log[1..] + [m];
    }
  }

  /** The module's `messages` array. */
  class MessageLog {
    var messages: seq<Message>

    constructor ()
      ensures messages == []
    {
      messages := [];
    }

    /** `clear()`: `splice(0)` removes every entry. */
    method Clear()
      modifies this
      ensures messages == []
    {
      messages := SpliceFront(messages, |messages|);
    }

    /** `print(message, className)`; the redraw that follows is not modelled. */
    method Print(message: string, className: string)
      modifies this
      ensures |messages| <= MAX_MESSAGE_LINES
      ensures messages == Printed(old(messages), Message(message, className))
      ensures messages == Newest(old(messages) + [Message(message, className)], MAX_MESSAGE_LINES)
    {
      messages := messages + [Message(message, className)];
      messages := SpliceFront(messages, |messages| - MAX_MESSAGE_LINES);
      PrintedIsNewest(old(messages), Message(message, className));
      PrintedFacts(old(messages), Message(message, className));
    }
  }
}
