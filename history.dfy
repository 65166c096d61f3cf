/** Per-user chat history of the Anthropic-backed bot (oop.py,
    `RayaPrimeBot.message_handler`, lines 368-405).

    After the user's turn is appended, a history longer than 20 turns is cut
    to its last 20 (`h[-20:]`); the assistant's turn is appended after that
    cut, so a stored history may hold 21 turns. The comment on the cut speaks
    of 10 messages; the code keeps 20, and so does this model. */
module History {
  import opened Common

  /** The cap applied before each model call. */
  const MaxHistory: nat := 20

  datatype Role = User | Assistant

  /** One `{'role': ..., 'content': ...}` entry. */
  datatype Turn = Turn(role: Role, content: string)

  /** The last `n` elements of `s` (all of `s` when it is shorter). */
  function LastN<T>(s: seq<T>, n: nat): (r: seq<T>)
    ensures |r| == Min(|s|, n)
    ensures IsSuffix(r, s)
  {
    if |s| <= n then s else s[|s| - n..]
  }

  /** `if len(h) > 20: h = h[-20:]`: at most 20 turns, the most recent ones,
      in their original order; a short history is left alone. */
  function Trim(h: seq<Turn>): (r: seq<Turn>)
    ensures |r| == Min(|h|, MaxHistory)
    ensures IsSuffix(r, h)
    ensures |h| <= MaxHistory ==> r == h
  {
    if |h| > MaxHistory then h[|h| - MaxHistory..] else h
  }

  /** The history sent to the model for a message `text`: the stored turns,
      then the new user turn, cut to 20. The current message is always last. */
  function SentHistory(stored: seq<Turn>, text: string): (r: seq<Turn>)
    ensures |r| <= MaxHistory
    ensures 0 < |r| && r[|r| - 1] == Turn(User, text)
    ensures IsSuffix(r, stored + [Turn(User, text)])
    ensures |stored| < MaxHistory ==> r == stored + [Turn(User, text)]
  {
    Trim(stored + [Turn(User, text)])
  }

  /** Trimming the stored suffix loses nothing the cut would keep anyway:
      when `stored` is a suffix of the whole conversation `full` and either
      is all of it or holds at least 19 turns, the history sent next is the
      last 20 turns of the whole conversation. */
  lemma {:induction false} SentIsLastOfConversation(stored: seq<Turn>, full: seq<Turn>, text: string)
    requires IsSuffix(stored, full)
    requires stored == full || |stored| >= MaxHistory - 1
    ensures SentHistory(stored, text) == LastN(full + [Turn(User, text)], MaxHistory)
  {
    var t := Turn(User, text);
    if stored != full {
      var k := |full| - |stored|;
      assert full + [t] == full[..k] + (stored + [t]) by {
        assert full == full[..k] + full[k..];
      }
      var r := SentHistory(stored, text);
      var l := LastN(full + [t], MaxHistory);
      assert |r| == |l| == MaxHistory;
      forall i | 0 <= i < MaxHistory ensures r[i] == l[i] {
        assert r[i] == (stored + [t])[|stored| + 1 - MaxHistory + i];
        assert l[i] == (full + [t])[|full| + 1 - MaxHistory + i];
      }
    }
  }

  /** One message handled for an authorized user: its text and, when the
      model call succeeded, the reply that was stored. */
  datatype Exchange = Exchange(text: string, reply: Option<string>)

  /** The stored history after one exchange: the cut history that was sent,
      then the assistant's reply when there is one. */
  function StoreExchange(stored: seq<Turn>, x: Exchange): (r: seq<Turn>)
    ensures |SentHistory(stored, x.text)| <= |r| <= MaxHistory + 1
    ensures r[..|SentHistory(stored, x.text)|] == SentHistory(stored, x.text)
    ensures x.reply.None? ==> r == SentHistory(stored, x.text)
    ensures x.reply.Some? ==> |r| == |SentHistory(stored, x.text)| + 1
    ensures x.reply.Some? ==> r[|r| - 1] == Turn(Assistant, x.reply.value)
  {
    SentHistory(stored, x.text) + (if x.reply.Some? then [Turn(Assistant, x.reply.value)] else [])
  }

  /** Every turn of a sequence of exchanges, before any cut. */
  function Conversation(xs: seq<Exchange>): seq<Turn>
  {
    if xs == [] then []
    else
      var x := xs[|xs| - 1];
      Conversation(xs[..|xs| - 1]) + [Turn(User, x.text)]
        + (if x.reply.Some? then [Turn(Assistant, x.reply.value)] else [])
  }

  /** The stored history of a user after a sequence of exchanges, starting
      from the lazily created empty list. */
  function Replay(xs: seq<Exchange>): seq<Turn>
  {
    if xs == [] then [] else StoreExchange(Replay(xs[..|xs| - 1]), xs[|xs| - 1])
  }

  /** Replaying one more exchange stores it on top of the earlier replay. */
  lemma ReplayStep(xs: seq<Exchange>, x: Exchange)
    ensures Replay(xs + [x]) == StoreExchange(Replay(xs), x)
  {
    assert (xs + [x])[..|xs|] == xs;
  }

  /** The stored history is the tail of the conversation: at most 21 turns,
      and either the whole conversation or at least its last 20 turns. */
  lemma {:induction false} ReplayIsTail(xs: seq<Exchange>)
    ensures IsSuffix(Replay(xs), Conversation(xs))
    ensures |Replay(xs)| <= MaxHistory + 1
    ensures Replay(xs) == Conversation(xs) || |Replay(xs)| >= MaxHistory
  {
    if xs != [] {
      var init, x := xs[..|xs| - 1], xs[|xs| - 1];
      ReplayIsTail(init);
      var h, full := Replay(init), Conversation(init);
      var u := Turn(User, x.text);
      SuffixAppend(h, full, u);
      var sent := SentHistory(h, x.text);
      SuffixTrans(sent, h + [u], full + [u]);
      if x.reply.Some? {
        SuffixAppend(sent, full + [u], Turn(Assistant, x.reply.value));
        assert full + [u] + [Turn(Assistant, x.reply.value)] == Conversation(xs);
      } else {
        assert full + [u] == Conversation(xs);
      }
    }
  }

  /** After any sequence of exchanges, the history sent with the next
      message is exactly the last 20 turns of the whole conversation
      including that message, in their original order. */
  lemma SentIsRecent(xs: seq<Exchange>, text: string)
    ensures SentHistory(Replay(xs), text) == LastN(Conversation(xs) + [Turn(User, text)], MaxHistory)
  {
    ReplayIsTail(xs);
    SentIsLastOfConversation(Replay(xs), Conversation(xs), text);
  }

  /** Appending the same turn to a suffix and to the whole keeps it a suffix. */
  lemma SuffixAppend<T>(s: seq<T>, full: seq<T>, t: T)
    requires IsSuffix(s, full)
    ensures IsSuffix(s + [t], full + [t])
  {
  }

  /** A suffix of a suffix is a suffix. */
  lemma SuffixTrans<T>(a: seq<T>, b: seq<T>, c: seq<T>)
    requires IsSuffix(a, b) && IsSuffix(b, c)
    ensures IsSuffix(a, c)
  {
    forall i | 0 <= i < |a| ensures a[i] == c[|c| - |a| + i] {
      assert a[i] == b[|b| - |a| + i];
    }
  }
}
