/** The second, Groq-backed variant of the bot (oop.py.py): a global
    `memory` dict from user id to the list of chat messages sent to the
    model, extended in place by `get_raya_response`, and the `handle`
    entry point that ignores messages without text.

    The clock reading `datetime.now().strftime(...)` is a parameter `now`
    (already formatted), and the outcome of the HTTP request is an oracle
    `HttpOutcome`. */
module GroqBot {
  import opened Common

  datatype Role = System | User | Assistant

  /** One `{"role": ..., "name": ..., "content": ...}` entry; only user
      entries carry a `name`. */
  datatype Message = Message(role: Role, name: Option<string>, content: string)

  /** What the request produced after `r = s.post(...)`: a response with its
      status and, for status 200, either the answer read from
      `data['choices'][0]['message']['content']` or the text of the exception
      that reading raised; or an exception before any response (the text of
      `e` in the reply). */
  datatype Body = Content(answer: string) | Unreadable(error: string)
  datatype HttpOutcome = Response(status: nat, body: Body) | Raised(error: string)

  /** The request produced an answer: status 200 and a readable body. */
  predicate GotAnswer(outcome: HttpOutcome)
  {
    outcome.Response? && outcome.status == 200 && outcome.body.Content?
  }

  const SystemPrefix: string := "Ты — Рая Прайм, Сверх-ИИ. Твой создатель — Комиссар. Время: "
  const SystemSuffix: string := ". Используй 💠✨💎."
  const CoreErrorPrefix: string := "💠 Ошибка ядра (Status: "
  const LinkErrorPrefix: string := "💠 Сбой связи: "

  /** The system instruction with the current time filled in. */
  function SystemLogic(now: string): (r: string)
    ensures |r| == |SystemPrefix| + |now| + |SystemSuffix|
    ensures StartsWith(r, SystemPrefix)
    ensures r[|SystemPrefix|..|SystemPrefix| + |now|] == now
    ensures r[|SystemPrefix| + |now|..] == SystemSuffix
  {
    SystemPrefix + now + SystemSuffix
  }

  function DigitChar(d: nat): (c: char)
    requires d < 10
    ensures '0' <= c <= '9' && c as int - '0' as int == d
  {
    ('0' as int + d) as char
  }

  /** `str(n)` for a non-negative integer: its decimal digits, no leading
      zero. */
  function Decimal(n: nat): (r: string)
    ensures 0 < |r|
    ensures forall i :: 0 <= i < |r| ==> '0' <= r[i] <= '9'
    ensures n > 0 ==> r[0] != '0'
    decreases n
  {
    if n < 10 then [DigitChar(n)] else Decimal(n / 10) + [DigitChar(n % 10)]
  }

  /** The number a string of decimal digits denotes. */
  function DigitsValue(s: string): nat
    requires forall i :: 0 <= i < |s| ==> '0' <= s[i] <= '9'
  {
    if s == [] then 0 else 10 * DigitsValue(s[..|s| - 1]) + (s[|s| - 1] as int - '0' as int)
  }

  /** Reading the decimal text back gives the number: the status in the
      error reply is the status received. */
  lemma {:induction false} DecimalRoundTrip(n: nat)
    ensures DigitsValue(Decimal(n)) == n
    decreases n
  {
    var r := Decimal(n);
    if n >= 10 {
      DecimalRoundTrip(n / 10);
      assert r[..|r| - 1] == Decimal(n / 10);
    }
  }

  /** `get_raya_response`'s return value: the answer on success, the
      status error for any other status, and the connection error for an
      exception, including one raised while reading a 200 response. */
  function ResponseText(outcome: HttpOutcome): (r: string)
    ensures GotAnswer(outcome) ==> r == outcome.body.answer
    ensures outcome.Response? && outcome.status != 200 ==>
      r == CoreErrorPrefix + Decimal(outcome.status) + ")"
    ensures outcome.Raised? ==> r == LinkErrorPrefix + outcome.error
    ensures outcome.Response? && outcome.status == 200 && outcome.body.Unreadable? ==>
      r == LinkErrorPrefix + outcome.body.error
  {
    match outcome
    case Raised(e) => LinkErrorPrefix + e
    case Response(status, body) =>
      if status != 200 then CoreErrorPrefix + Decimal(status) + ")"
      else match body
        case Content(answer) => answer
        case Unreadable(e) => LinkErrorPrefix + e
  }

  /** A user's history as the code keeps it: one system turn first, and no
      other system turn after it. */
  predicate WellFormed(h: seq<Message>)
  {
    0 < |h| && h[0].role == System && forall i :: 1 <= i < |h| ==> h[i].role != System
  }

  /** The list sent as `messages`: the stored history (a fresh one seeded
      with the system turn on the first call) and the new user turn. */
  function SentMessages(stored: Option<seq<Message>>, name: string, text: string, now: string): (r: seq<Message>)
    ensures stored.None? ==> r == [Message(System, None, SystemLogic(now)), Message(User, Some(name), text)]
    ensures stored.Some? ==> |r| == |stored.value| + 1 && r[..|stored.value|] == stored.value
    ensures r[|r| - 1] == Message(User, Some(name), text)
    ensures stored.Some? && WellFormed(stored.value) ==> WellFormed(r)
    ensures stored.None? ==> WellFormed(r)
  {
    var base := if stored.Some? then stored.value else [Message(System, None, SystemLogic(now))];
    base + [Message(User, Some(name), text)]
  }

  /** The user's history after the call: the messages sent, then the
      answer as an assistant turn when the request produced one. */
  function Remembered(stored: Option<seq<Message>>, name: string, text: string, now: string,
                      outcome: HttpOutcome): (r: seq<Message>)
    ensures var sent := SentMessages(stored, name, text, now);
      && |r| == |sent| + (if GotAnswer(outcome) then 1 else 0)
      && r[..|sent|] == sent
    ensures GotAnswer(outcome) ==> r[|r| - 1] == Message(Assistant, None, outcome.body.answer)
    ensures stored.Some? ==> |r| == |stored.value| + (if GotAnswer(outcome) then 2 else 1)
    ensures stored.Some? ==> r[..|stored.value|] == stored.value
    ensures (stored.None? || WellFormed(stored.value)) ==> WellFormed(r)
  {
    var sent := SentMessages(stored, name, text, now);
    if GotAnswer(outcome) then sent + [Message(Assistant, None, outcome.body.answer)] else sent
  }

  /** One call of `get_raya_response`, as its inputs. */
  datatype Call = Call(name: string, text: string, now: string, outcome: HttpOutcome)

  /** A user's history after a sequence of calls, starting from no entry. */
  function HistoryAfter(calls: seq<Call>): (r: seq<Message>)
    requires 0 < |calls|
    decreases |calls|
  {
    var c := calls[|calls| - 1];
    Remembered(if |calls| == 1 then None else Some(HistoryAfter(calls[..|calls| - 1])),
               c.name, c.text, c.now, c.outcome)
  }

  /** The number of messages of a role. */
  function CountRole(h: seq<Message>, role: Role): nat
  {
    if h == [] then 0 else CountRole(h[..|h| - 1], role) + (if h[|h| - 1].role == role then 1 else 0)
  }

  /** The number of calls whose request produced an answer. */
  function CountAnswered(calls: seq<Call>): nat
  {
    if calls == [] then 0
    else CountAnswered(calls[..|calls| - 1]) + (if GotAnswer(calls[|calls| - 1].outcome) then 1 else 0)
  }

  lemma CountRoleAppend(h: seq<Message>, m: Message, role: Role)
    ensures CountRole(h + [m], role) == CountRole(h, role) + (if m.role == role then 1 else 0)
  {
    assert (h + [m])[..|h|] == h;
  }

  /** After any sequence of calls for one user, the history is never
      trimmed: it holds exactly one system turn, one user turn per call and
      one assistant turn per answered call, so its length is one plus the
      calls plus the answers. */
  lemma {:induction false} HistoryCounts(calls: seq<Call>)
    requires 0 < |calls|
    ensures WellFormed(HistoryAfter(calls))
    ensures CountRole(HistoryAfter(calls), System) == 1
    ensures CountRole(HistoryAfter(calls), User) == |calls|
    ensures CountRole(HistoryAfter(calls), Assistant) == CountAnswered(calls)
    ensures |HistoryAfter(calls)| == 1 + |calls| + CountAnswered(calls)
    decreases |calls|
  {
    var c := calls[|calls| - 1];
    var init := calls[..|calls| - 1];
    var u := Message(User, Some(c.name), c.text);
    var sys := Message(System, None, SystemLogic(c.now));
    var stored: seq<Message>;
    if |calls| == 1 {
      stored := [sys];
      assert init == [];
      assert CountRole([sys], System) == 1 by { CountRoleAppend([], sys, System); }
      CountRoleAppend([], sys, User);
      CountRoleAppend([], sys, Assistant);
    } else {
      HistoryCounts(init);
      stored := HistoryAfter(init);
    }
    var sent := stored + [u];
    assert SentMessages(if |calls| == 1 then None else Some(stored), c.name, c.text, c.now) == sent;
    CountRoleAppend(stored, u, System);
    CountRoleAppend(stored, u, User);
    CountRoleAppend(stored, u, Assistant);
    if GotAnswer(c.outcome) {
      var a := Message(Assistant, None, c.outcome.body.answer);
      CountRoleAppend(sent, a, System);
      CountRoleAppend(sent, a, User);
      CountRoleAppend(sent, a, Assistant);
    }
  }

  /** An earlier history is a prefix of every later one: the history only
      grows. */
  lemma {:induction false} HistoryGrows(calls: seq<Call>, k: nat)
    requires 0 < k <= |calls|
    ensures |HistoryAfter(calls[..k])| <= |HistoryAfter(calls)|
    ensures HistoryAfter(calls)[..|HistoryAfter(calls[..k])|] == HistoryAfter(calls[..k])
    decreases |calls|
  {
    if k < |calls| {
      var init := calls[..|calls| - 1];
      HistoryGrows(init, k);
      assert init[..k] == calls[..k];
      var h := HistoryAfter(init);
      var c := calls[|calls| - 1];
      assert HistoryAfter(calls) == Remembered(Some(h), c.name, c.text, c.now, c.outcome);
      var p := HistoryAfter(calls[..k]);
      assert HistoryAfter(calls)[..|p|] == HistoryAfter(calls)[..|h|][..|p|];
    } else {
      assert calls[..k] == calls;
    }
  }

  /** The module-level `memory` dict. */
  class RayaMemory {
    var memory: map<UserId, seq<Message>>

    /** Every history starts with its single system turn. */
    ghost predicate Valid()
      reads this
    {
      forall u :: u in memory ==> WellFormed(memory[u])
    }

    constructor ()
      ensures Valid() && memory == map[]
    {
      memory := map[];
    }

    /** `get_raya_response`: the entry is created with the system turn on
        the first call, the user turn is appended and the history sent, and
        the answer is appended only when the request produced one. Only the
        caller's entry changes. */
    method GetRayaResponse(uid: UserId, userText: string, userName: string, now: string,
                           outcome: HttpOutcome)
      returns (response: string, sent: seq<Message>)
      requires Valid()
      modifies this
      ensures Valid()
      ensures var stored := if uid in old(memory) then Some(old(memory)[uid]) else None;
        && sent == SentMessages(stored, userName, userText, now)
        && memory == old(memory)[uid := Remembered(stored, userName, userText, now, outcome)]
      ensures response == ResponseText(outcome)
    {
      ghost var stored := if uid in memory then Some(memory[uid]) else None;
      if uid !in memory {
        memory := memory[uid := [Message(System, None, SystemLogic(now))]];
      }
      memory := memory[uid := memory[uid] + [Message(User, Some(userName), userText)]];
      sent := memory[uid];
      match outcome
      case Raised(e) =>
        response := LinkErrorPrefix + e;
      case Response(status, body) =>
        if status == 200 {
          match body
          case Content(ans) =>
            memory := memory[uid := memory[uid] + [Message(Assistant, None, ans)]];
            response := ans;
          case Unreadable(e) =>
            response := LinkErrorPrefix + e;
        } else {
          response := CoreErrorPrefix + Decimal(status) + ")";
        }
      assert memory == old(memory)[uid := Remembered(stored, userName, userText, now, outcome)];
    }

    /** `handle`: a message without text (None or empty) is ignored with no
        reply; any other is answered with `get_raya_response`'s result. */
    method Handle(uid: UserId, text: Option<string>, firstName: string, now: string,
                  outcome: HttpOutcome)
      returns (reply: Option<string>)
      requires Valid()
      modifies this
      ensures Valid()
      ensures !Truthy(text) ==> reply.None? && memory == old(memory)
      ensures Truthy(text) ==>
        && reply == Some(ResponseText(outcome))
        && memory == old(memory)[uid := Remembered(if uid in old(memory) then Some(old(memory)[uid]) else None,
                                                   firstName, text.value, now, outcome)]
    {
      if !Truthy(text) {
        return None;
      }
      var response, _ := GetRayaResponse(uid, text.value, firstName, now, outcome);
      reply := Some(response);
    }
  }
}
