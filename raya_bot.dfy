/** The Telegram bot of oop.py (`RayaPrimeBot`): the access list, the per-user
    chat history, the pending single-event offer, the Gmail scan with its
    stored batch, and the button handler that creates calendar events.

    Network calls are oracle inputs: the model's replies (`AiOutcome`), the
    Gmail search result, the ISO start parser and the outcome of each remote
    calendar insert. `context.user_data` is per user, so the pending offer
    and the stored batch are maps keyed by user id. */
module RayaPrime {
  import opened Common
  import opened Extraction
  import opened Calendar
  import opened History

  /** One message summary as `search_gmail` returns it. */
  datatype Email = Email(subject: string, sender: string, snippet: string)

  /** One entry of `found_events`. */
  datatype FoundItem = FoundItem(email: Email, event: EventData)

  /** Replies of `message_handler`. */
  datatype ChatReply =
    | AccessDenied                 // "Используй /start для доступа"
    | AiError                      // "Ошибка AI: ..." (any exception in the try block)
    | Answer(text: string)         // the model's reply, no button
    | AnswerWithOffer(text: string, buttonTitle: string, callbackData: string)

  /** One line of the Gmail preview as shown: number, title, date and time
      (`?` for a missing key, `None` for a null), sender cut to 40. */
  datatype PreviewLine = PreviewLine(number: nat, title: string, date: string,
                                     time: string, sender: string)

  /** Replies of `gmail_command`; `GmailCrashed` is the KeyError raised while
      formatting a preview entry that has no title. */
  datatype GmailReply =
    | GmailDenied
    | GoogleNotConnected
    | NoNewEmails
    | EventsFound(total: nat, preview: seq<PreviewLine>)
    | NoEventsInMail
    | GmailCrashed

  /** Replies of `button_callback`; `CallbackCrashed` is an exception that
      escapes the handler (no reply is edited). */
  datatype CallbackReply =
    | NoEventsToCreate
    | CreatedCount(created: nat)
    | LoadingCalendar
    | EventCreated(title: string)
    | CreateFailed
    | Ignored
    | CallbackCrashed

  const CreateAllData: string := "create_all"
  const ShowCalendarData: string := "show_calendar"
  const CreateEventPrefix: string := "create_event_"
  /** Only the first five found events are listed in the Gmail reply. */
  const PreviewSize: nat := 5
  const SenderWidth: nat := 40

  // ---------------------------------------------------------------- access

  /** `/start`: the id is appended only when it is absent. */
  function AddAllowed(allowed: seq<UserId>, user: UserId): (r: seq<UserId>)
    ensures user in r
    ensures forall x :: x in r <==> x in allowed || x == user
    ensures |allowed| <= |r| <= |allowed| + 1 && r[..|allowed|] == allowed
    ensures NoDuplicates(allowed) ==> NoDuplicates(r)
    ensures user in allowed ==> r == allowed
    ensures user !in allowed ==> r == allowed + [user]
  {
    if user in allowed then allowed else allowed + [user]
  }

  /** A second `/start` from the same user changes nothing. */
  lemma AddAllowedIdempotent(allowed: seq<UserId>, user: UserId)
    ensures AddAllowed(AddAllowed(allowed, user), user) == AddAllowed(allowed, user)
  {
  }

  // ---------------------------------------------------------------- offers

  /** What `message_handler` may store as `pending_event`: an extracted
      event (found) with a truthy date and time and a `title` key (the title
      is read for the button before the event is stored; a null title reads
      as `None`). */
  predicate Offerable(e: EventData)
  {
    e.found && HasDateTime(e) && !e.title.Missing?
  }

  /** `f"create_event_{date}_{time}"`: always routed to the confirm branch. */
  function OfferCallbackData(date: string, time: string): (r: string)
    ensures StartsWith(r, CreateEventPrefix)
    ensures r != CreateAllData && r != ShowCalendarData
  {
    CreateEventPrefix + date + "_" + time
  }

  /** The branch `create_event_...` of `button_callback`: it reads the stored
      pending event, never the date and time encoded in the button, and
      leaves it in place. Success needs a pending event and a True from
      `create_event`; a missing Google object raises. */
  function ConfirmPending(pending: Option<EventData>, google: Option<GoogleServices>,
                          parseStart: string -> Option<int>, inserted: bool): (r: CallbackReply)
    requires pending.Some? ==> Offerable(pending.value)
    ensures r.EventCreated? || r == CreateFailed || r == CallbackCrashed
    ensures r.EventCreated? <==>
      && pending.Some? && google.Some?
      && google.value.CreateEvent(Passed(pending.value.title), pending.value.date.s,
                                  pending.value.time.s,
                                  DurationOrDefault(pending.value.duration), parseStart, inserted)
    ensures r.EventCreated? ==> r.title == Shown(pending.value.title)
    ensures r == CallbackCrashed <==> pending.Some? && google.None?
  {
    match pending
    case None => CreateFailed
    case Some(ev) =>
      match google
      case None => CallbackCrashed
      case Some(g) =>
        if g.CreateEvent(Passed(ev.title), ev.date.s, ev.time.s,
                         DurationOrDefault(ev.duration), parseStart, inserted)
        then EventCreated(Shown(ev.title))
        else CreateFailed
  }

  /** The reply text a model call leaves in the history, if any. */
  function StoredReply(chat: AiOutcome): (r: Option<string>)
    ensures r.Some? <==> chat.AiReply?
    ensures r.Some? ==> r.value == chat.text
  {
    match chat
    case AiReply(t) => Some(t)
    case AiFailure => None
  }

  /** What the offer step of `message_handler` does with the extracted
      event, after the reply has been stored: the new pending event (None:
      keep the earlier one) and the reply. */
  datatype OfferOutcome = OfferOutcome(pending: Option<EventData>, reply: ChatReply)

  /** An event with a truthy date and time is offered with a button and
      becomes the pending event, replacing any earlier one; a null title is
      shown as `None`, while a missing `title` key raises KeyError, which
      the handler reports as an AI error. Any other outcome sends the plain
      reply. */
  function Offer(event: Option<EventData>, botReply: string): (o: OfferOutcome)
    requires event.Some? ==> event.value.found
    ensures o.pending.Some? <==> event.Some? && HasDateTime(event.value) && !event.value.title.Missing?
    ensures o.pending.Some? ==> o.pending == event && Offerable(o.pending.value)
    ensures o.pending.Some? ==>
      o.reply == AnswerWithOffer(botReply, Shown(event.value.title),
                                 OfferCallbackData(event.value.date.s, event.value.time.s))
    ensures o.reply == AiError <==> event.Some? && HasDateTime(event.value) && event.value.title.Missing?
    ensures (event.None? || !HasDateTime(event.value)) ==> o.reply == Answer(botReply)
  {
    if event.Some? && FieldTruthy(event.value.date) && FieldTruthy(event.value.time) then
      if event.value.title.Missing? then OfferOutcome(None, AiError)
      else
        OfferOutcome(event, AnswerWithOffer(botReply, Shown(event.value.title),
                                            OfferCallbackData(event.value.date.s, event.value.time.s)))
    else OfferOutcome(None, Answer(botReply))
  }

  // ---------------------------------------------------------------- bulk create

  /** Item `i` of the batch is created: it has a date, a time and a `title`
      key, and `create_event` returns True for it. */
  predicate ItemCreated(item: FoundItem, g: GoogleServices,
                        parseStart: string -> Option<int>, inserted: bool)
  {
    && HasDateTime(item.event)
    && !item.event.title.Missing?
    && g.CreateEvent(Passed(item.event.title), item.event.date.s, item.event.time.s,
                     DurationOrDefault(item.event.duration), parseStart, inserted)
  }

  /** `created` after the loop over `items`, when no item raises. */
  function CountCreated(items: seq<FoundItem>, g: GoogleServices,
                        parseStart: string -> Option<int>, inserted: nat -> bool): nat
  {
    if |items| == 0 then 0
    else CountCreated(items[..|items| - 1], g, parseStart, inserted)
         + (if ItemCreated(items[|items| - 1], g, parseStart, inserted(|items| - 1)) then 1 else 0)
  }

  /** Number of items with both a date and a time: the only ones attempted. */
  function CountAttempted(items: seq<FoundItem>): nat
  {
    if |items| == 0 then 0
    else CountAttempted(items[..|items| - 1]) + (if HasDateTime(items[|items| - 1].event) then 1 else 0)
  }

  /** Item `i` makes the loop raise: it is attempted, and either there is no
      Google object or the event has no `title` key (KeyError). */
  predicate RaisesAt(items: seq<FoundItem>, google: Option<GoogleServices>, i: int)
  {
    0 <= i < |items| && HasDateTime(items[i].event)
    && (google.None? || items[i].event.title.Missing?)
  }

  /** Bulk count bounds: never more created than attempted, never more
      attempted than listed, and nothing at all without a connection. */
  lemma {:induction false} CountCreatedBounds(items: seq<FoundItem>, g: GoogleServices,
                                              parseStart: string -> Option<int>, inserted: nat -> bool)
    ensures CountCreated(items, g, parseStart, inserted) <= CountAttempted(items) <= |items|
    ensures !g.connected ==> CountCreated(items, g, parseStart, inserted) == 0
  {
    if |items| > 0 {
      CountCreatedBounds(items[..|items| - 1], g, parseStart, inserted);
    }
  }

  /** When every insert succeeds and every attempted item has a title key
      and a body `create_event` can build, every attempted item is created. */
  lemma {:induction false} AllInsertsSucceed(items: seq<FoundItem>, g: GoogleServices,
                                             parseStart: string -> Option<int>, inserted: nat -> bool)
    requires forall i :: 0 <= i < |items| ==> inserted(i)
    requires forall i :: 0 <= i < |items| && HasDateTime(items[i].event) ==>
      && !items[i].event.title.Missing?
      && g.PlannedBody(Passed(items[i].event.title), items[i].event.date.s, items[i].event.time.s,
                       DurationOrDefault(items[i].event.duration), parseStart).Some?
    ensures CountCreated(items, g, parseStart, inserted) == CountAttempted(items)
  {
    if |items| > 0 {
      AllInsertsSucceed(items[..|items| - 1], g, parseStart, inserted);
    }
  }

  /** The `create_all` loop over a non-empty batch: every item with a date
      and a time is passed to `create_event` (its oracle outcome is
      `inserted(i)`), `created` counts the True results, and the first such
      item without a Google object or a title raises. */
  method CreateAll(items: seq<FoundItem>, google: Option<GoogleServices>,
                   parseStart: string -> Option<int>, inserted: nat -> bool)
    returns (reply: CallbackReply)
    ensures reply == CallbackCrashed <==> exists i :: RaisesAt(items, google, i)
    ensures reply != CallbackCrashed ==> reply.CreatedCount?
    ensures reply != CallbackCrashed && google.Some? ==>
      reply.created == CountCreated(items, google.value, parseStart, inserted)
    ensures reply != CallbackCrashed && google.None? ==> reply.created == 0
  {
    var created := 0;
    var i := 0;
    while i < |items|
      invariant 0 <= i <= |items|
      invariant forall k :: 0 <= k < i ==> !RaisesAt(items, google, k)
      invariant google.Some? ==> created == CountCreated(items[..i], google.value, parseStart, inserted)
      invariant google.None? ==> created == 0
    {
      var ev := items[i].event;
      assert items[..i + 1][..i] == items[..i];
      if FieldTruthy(ev.date) && FieldTruthy(ev.time) {
        if google.None? || ev.title.Missing? {
          assert RaisesAt(items, google, i);
          return CallbackCrashed;
        }
        var ok := google.value.CreateEvent(Passed(ev.title), ev.date.s, ev.time.s,
                                           DurationOrDefault(ev.duration), parseStart, inserted(i));
        if ok {
          created := created + 1;
        }
      }
      i := i + 1;
    }
    assert items[..|items|] == items;
    reply := CreatedCount(created);
  }

  // ---------------------------------------------------------------- Gmail scan

  /** `f"{subject} {snippet}"`. */
  function MailText(e: Email): string
  {
    e.subject + " " + e.snippet
  }

  /** `any(kw in text.lower() for kw in keywords)`; `lower` is Python's
      `str.lower`, taken as given. The keywords themselves are not lowered. */
  predicate MatchesKeyword(text: string, keywords: seq<string>, lower: string -> string)
  {
    exists k :: 0 <= k < |keywords| && Contains(lower(text), keywords[k])
  }

  predicate StrictlyIncreasing(s: seq<nat>)
  {
    forall a, b :: 0 <= a < b < |s| ==> s[a] < s[b]
  }

  /** Email `i` is analysed: its lowered text holds a keyword. */
  predicate Matching(emails: seq<Email>, i: nat, keywords: seq<string>, lower: string -> string)
    requires i < |emails|
  {
    MatchesKeyword(MailText(emails[i]), keywords, lower)
  }

  /** The positions among the first `n` fetched emails on which extraction
      runs, in order. */
  function Analysed(emails: seq<Email>, n: nat, keywords: seq<string>, lower: string -> string): seq<nat>
    requires n <= |emails|
  {
    if n == 0 then []
    else Analysed(emails, n - 1, keywords, lower) + (if Matching(emails, n - 1, keywords, lower) then [n - 1] else [])
  }

  /** The found items among the first `n` fetched emails, in order: those
      that are analysed and whose extraction returned an event, each with
      that event. */
  function ScanPrefix(emails: seq<Email>, n: nat, keywords: seq<string>, lower: string -> string,
                      replies: nat -> AiOutcome, parse: string -> Option<EventData>): seq<FoundItem>
    requires n <= |emails|
  {
    if n == 0 then []
    else
      var event := ExtractEvent(replies(n - 1), parse);
      ScanPrefix(emails, n - 1, keywords, lower, replies, parse)
        + (if Matching(emails, n - 1, keywords, lower) && event.Some?
           then [FoundItem(emails[n - 1], event.value)] else [])
  }

  /** One more email extends the found list by at most that email. */
  lemma ScanStep(emails: seq<Email>, n: nat, keywords: seq<string>, lower: string -> string,
                 replies: nat -> AiOutcome, parse: string -> Option<EventData>, event: Option<EventData>)
    requires n < |emails| && event == ExtractEvent(replies(n), parse)
    ensures ScanPrefix(emails, n + 1, keywords, lower, replies, parse)
      == ScanPrefix(emails, n, keywords, lower, replies, parse)
         + (if Matching(emails, n, keywords, lower) && event.Some? then [FoundItem(emails[n], event.value)] else [])
  {
  }

  /** `found_events` after the loop of `gmail_command`. */
  function Scan(emails: seq<Email>, keywords: seq<string>, lower: string -> string,
                replies: nat -> AiOutcome, parse: string -> Option<EventData>): seq<FoundItem>
  {
    ScanPrefix(emails, |emails|, keywords, lower, replies, parse)
  }

  /** Extraction runs on exactly the emails whose lowered text holds a
      keyword, each once, in source order. */
  lemma {:induction false} AnalysedExactly(emails: seq<Email>, n: nat, keywords: seq<string>,
                                           lower: string -> string)
    requires n <= |emails|
    ensures StrictlyIncreasing(Analysed(emails, n, keywords, lower))
    ensures forall i :: i in Analysed(emails, n, keywords, lower) <==>
      0 <= i < n && Matching(emails, i, keywords, lower)
  {
    if n > 0 {
      AnalysedExactly(emails, n - 1, keywords, lower);
      var prev := Analysed(emails, n - 1, keywords, lower);
      if Matching(emails, n - 1, keywords, lower) {
        AppendIncreasing(prev, n - 1);
      }
    }
  }

  /** `origins` are the positions, among the first `n` emails, of the
      entries of `found`: strictly increasing, each entry is its email with
      its extracted event, and no analysed email with an event is left out. */
  ghost predicate OriginsOf(origins: seq<nat>, found: seq<FoundItem>, emails: seq<Email>, n: nat,
                            keywords: seq<string>, lower: string -> string,
                            replies: nat -> AiOutcome, parse: string -> Option<EventData>)
    requires n <= |emails|
  {
    && |origins| == |found|
    && StrictlyIncreasing(origins)
    && (forall k :: 0 <= k < |origins| ==>
          && origins[k] < n && Matching(emails, origins[k], keywords, lower)
          && found[k].email == emails[origins[k]]
          && ExtractEvent(replies(origins[k]), parse) == Some(found[k].event))
    && (forall i :: (0 <= i < n && Matching(emails, i, keywords, lower)
                     && ExtractEvent(replies(i), parse).Some?) ==> i in origins)
  }

  /** An analysed email with an event extends both lists. */
  lemma OriginsExtend(origins: seq<nat>, found: seq<FoundItem>, emails: seq<Email>, n: nat,
                      keywords: seq<string>, lower: string -> string,
                      replies: nat -> AiOutcome, parse: string -> Option<EventData>, event: EventData,
                      found': seq<FoundItem>)
    requires n < |emails| && OriginsOf(origins, found, emails, n, keywords, lower, replies, parse)
    requires Matching(emails, n, keywords, lower) && ExtractEvent(replies(n), parse) == Some(event)
    requires found' == found + [FoundItem(emails[n], event)]
    ensures OriginsOf(origins + [n], found', emails, n + 1, keywords, lower, replies, parse)
  {
    forall j | j in origins ensures j < n {
      var k :| 0 <= k < |origins| && origins[k] == j;
    }
    AppendIncreasing(origins, n);
    var o, f := origins + [n], found';
    forall k | 0 <= k < |o|
      ensures && o[k] < n + 1 && Matching(emails, o[k], keywords, lower)
              && f[k].email == emails[o[k]]
              && ExtractEvent(replies(o[k]), parse) == Some(f[k].event)
    {
      if k < |origins| {
        assert f[k] == found[k] && o[k] == origins[k];
      }
    }
    forall i | 0 <= i < n + 1 && Matching(emails, i, keywords, lower) && ExtractEvent(replies(i), parse).Some?
      ensures i in o
    {
      if i < n {
        assert i in origins;
      } else {
        assert o[|origins|] == i;
      }
    }
  }

  /** An email not analysed, or without an event, changes neither list. */
  lemma OriginsSkip(origins: seq<nat>, found: seq<FoundItem>, emails: seq<Email>, n: nat,
                    keywords: seq<string>, lower: string -> string,
                    replies: nat -> AiOutcome, parse: string -> Option<EventData>, found': seq<FoundItem>)
    requires n < |emails| && OriginsOf(origins, found, emails, n, keywords, lower, replies, parse)
    requires !(Matching(emails, n, keywords, lower) && ExtractEvent(replies(n), parse).Some?)
    requires found' == found
    ensures OriginsOf(origins, found', emails, n + 1, keywords, lower, replies, parse)
  {
    forall i | 0 <= i < n + 1 && Matching(emails, i, keywords, lower) && ExtractEvent(replies(i), parse).Some?
      ensures i in origins
    {
      assert i < n;
    }
  }

  /** The found list is exactly the analysed emails whose extraction
      returned an event, in source order: `origins` are their positions,
      strictly increasing, each entry is its email with its extracted event,
      and no such email is left out. */
  lemma {:induction false} ScanOrigins(emails: seq<Email>, n: nat, keywords: seq<string>,
                                       lower: string -> string, replies: nat -> AiOutcome,
                                       parse: string -> Option<EventData>)
    returns (origins: seq<nat>)
    requires n <= |emails|
    ensures OriginsOf(origins, ScanPrefix(emails, n, keywords, lower, replies, parse), emails, n,
                      keywords, lower, replies, parse)
  {
    if n == 0 {
      origins := [];
    } else {
      var prev := ScanOrigins(emails, n - 1, keywords, lower, replies, parse);
      var event := ExtractEvent(replies(n - 1), parse);
      ScanStep(emails, n - 1, keywords, lower, replies, parse, event);
      if Matching(emails, n - 1, keywords, lower) && event.Some? {
        OriginsExtend(prev, ScanPrefix(emails, n - 1, keywords, lower, replies, parse), emails, n - 1,
                      keywords, lower, replies, parse, event.value,
                      ScanPrefix(emails, n, keywords, lower, replies, parse));
        origins := prev + [n - 1];
      } else {
        OriginsSkip(prev, ScanPrefix(emails, n - 1, keywords, lower, replies, parse), emails, n - 1,
                    keywords, lower, replies, parse, ScanPrefix(emails, n, keywords, lower, replies, parse));
        origins := prev;
      }
    }
  }

  /** The loop of `gmail_command` over the fetched emails: `analysed` are
      the positions extraction runs on, `found` is `found_events`.
      `replies(i)` is the model's answer to the extraction prompt for email
      i. What the two hold is stated by `AnalysedExactly` and
      `ScanOrigins`. */
  method ScanEmails(emails: seq<Email>, keywords: seq<string>, lower: string -> string,
                    replies: nat -> AiOutcome, parse: string -> Option<EventData>)
    returns (found: seq<FoundItem>, analysed: seq<nat>)
    ensures found == Scan(emails, keywords, lower, replies, parse)
    ensures analysed == Analysed(emails, |emails|, keywords, lower)
  {
    found, analysed := [], [];
    var i := 0;
    while i < |emails|
      invariant 0 <= i <= |emails|
      invariant found == ScanPrefix(emails, i, keywords, lower, replies, parse)
      invariant analysed == Analysed(emails, i, keywords, lower)
    {
      var text := MailText(emails[i]);
      var event := ExtractEvent(replies(i), parse);
      ScanStep(emails, i, keywords, lower, replies, parse, event);
      if MatchesKeyword(text, keywords, lower) {
        analysed := analysed + [i];
        if event.Some? {
          found := found + [FoundItem(emails[i], event.value)];
        }
      }
      i := i + 1;
    }
  }

  /** `s[:40]`. */
  function Cut(s: string): (r: string)
    ensures |r| == Min(|s|, SenderWidth) && StartsWith(s, r)
  {
    s[..Min(|s|, SenderWidth)]
  }

  /** The preview of the first five found events (`found_events[:5]`),
      numbered from 1, with `ev['title']`, `ev.get('date', '?')`,
      `ev.get('time', '?')` and the first 40 characters of the sender; None
      when one of them has no `title` key (KeyError). */
  function Preview(found: seq<FoundItem>): (r: Option<seq<PreviewLine>>)
    ensures r.Some? <==> forall k :: 0 <= k < Min(|found|, PreviewSize) ==> !found[k].event.title.Missing?
    ensures r.Some? ==> |r.value| == Min(|found|, PreviewSize)
    ensures r.Some? ==> forall k :: 0 <= k < |r.value| ==>
      && r.value[k].number == k + 1
      && r.value[k].title == Shown(found[k].event.title)
      && r.value[k].date == ShownOr(found[k].event.date, "?")
      && r.value[k].time == ShownOr(found[k].event.time, "?")
      && r.value[k].sender == Cut(found[k].email.sender)
    decreases |found|
  {
    PreviewFrom(found, 0)
  }

  /** Preview lines for positions `start` to the end of the first five. */
  function PreviewFrom(found: seq<FoundItem>, start: nat): (r: Option<seq<PreviewLine>>)
    requires start <= Min(|found|, PreviewSize)
    ensures r.Some? <==> forall k :: start <= k < Min(|found|, PreviewSize) ==> !found[k].event.title.Missing?
    ensures r.Some? ==> |r.value| == Min(|found|, PreviewSize) - start
    ensures r.Some? ==> forall k :: 0 <= k < |r.value| ==>
      && r.value[k].number == start + k + 1
      && r.value[k].title == Shown(found[start + k].event.title)
      && r.value[k].date == ShownOr(found[start + k].event.date, "?")
      && r.value[k].time == ShownOr(found[start + k].event.time, "?")
      && r.value[k].sender == Cut(found[start + k].email.sender)
    decreases Min(|found|, PreviewSize) - start
  {
    if start == Min(|found|, PreviewSize) then Some([])
    else
      var ev := found[start].event;
      if ev.title.Missing? then None
      else
        match PreviewFrom(found, start + 1)
        case None => None
        case Some(rest) =>
          Some([PreviewLine(start + 1, Shown(ev.title), ShownOr(ev.date, "?"), ShownOr(ev.time, "?"),
                            Cut(found[start].email.sender))] + rest)
  }

  // ---------------------------------------------------------------- the bot

  class RayaPrimeBot {
    /** `config['allowed_users']`. */
    var allowedUsers: seq<UserId>
    /** `config['keywords']`. */
    var keywords: seq<string>
    /** `self.chat_histories`. */
    var chatHistories: map<UserId, seq<Turn>>
    /** `context.user_data['pending_event']`, per user. */
    var pendingEvent: map<UserId, EventData>
    /** `context.user_data['found_events']`, per user. */
    var foundEvents: map<UserId, seq<FoundItem>>
    /** `self.google`: None when the Google libraries are missing. */
    const google: Option<GoogleServices>

    /** Histories exist only for users on the access list and hold at most
        21 turns, and a pending event is always one that could be offered. */
    ghost predicate Valid()
      reads this
    {
      && HistoriesBounded()
      && PendingOfferable()
    }

    /** Each stored history belongs to an authorized user and holds at most
        the 20 turns sent plus one reply. */
    ghost predicate HistoriesBounded()
      reads this`chatHistories, this`allowedUsers
    {
      forall u :: u in chatHistories ==> u in allowedUsers && |chatHistories[u]| <= MaxHistory + 1
    }

    /** Every pending event could be offered. */
    ghost predicate PendingOfferable()
      reads this`pendingEvent
    {
      forall u :: u in pendingEvent ==> Offerable(pendingEvent[u])
    }

    /** The bot after `load_config`: the loaded access list and keywords, no
        history, no pending offer, no stored batch. */
    constructor (allowed: seq<UserId>, keywords: seq<string>, google: Option<GoogleServices>)
      ensures Valid()
      ensures allowedUsers == allowed && this.keywords == keywords && this.google == google
      ensures chatHistories == map[] && pendingEvent == map[] && foundEvents == map[]
    {
      allowedUsers := allowed;
      this.keywords := keywords;
      this.google := google;
      chatHistories := map[];
      pendingEvent := map[];
      foundEvents := map[];
    }

    /** `start_command`: adds the user to the access list if absent. */
    method StartCommand(user: UserId)
      requires Valid()
      modifies this`allowedUsers
      ensures Valid()
      ensures allowedUsers == AddAllowed(old(allowedUsers), user)
    {
      if user !in allowedUsers {
        allowedUsers := allowedUsers + [user];
      }
    }

    /** `message_handler`. `chat` is the outcome of the conversational call,
        `extraction` that of the extraction call; `sent` is the history
        passed to the conversational call (None when the user is turned
        away). Each call performs one `StoreExchange` step on the user's
        history, starting from the empty history the first message creates,
        so after any sequence of exchanges `xs` that history is `Replay(xs)`
        and, by `SentIsRecent`, the history sent is the last 20 turns of the
        whole conversation. */
    method MessageHandler(user: UserId, text: string, chat: AiOutcome, extraction: AiOutcome,
                          parse: string -> Option<EventData>)
      returns (reply: ChatReply, sent: Option<seq<Turn>>)
      requires Valid()
      modifies this`chatHistories, this`pendingEvent
      ensures Valid()
      // An unauthorized user is turned away before anything changes.
      ensures user !in allowedUsers ==> reply == AccessDenied && sent.None? && unchanged(this)
      // The history sent is the stored one plus the message, cut to 20; the
      // stored history becomes that plus the reply, if any.
      ensures user in allowedUsers ==>
        var stored := if user in old(chatHistories) then old(chatHistories)[user] else [];
        && reply != AccessDenied
        && sent == Some(SentHistory(stored, text))
        && chatHistories == old(chatHistories)[user := StoreExchange(stored, Exchange(text, StoredReply(chat)))]
      // On failure there is no reply and no offer.
      ensures user in allowedUsers && chat.AiFailure? ==>
        reply == AiError && unchanged(this`pendingEvent)
      // The offer: only an event with a truthy date and time replaces the
      // pending one; otherwise the earlier pending event stays.
      ensures user in allowedUsers && chat.AiReply? ==>
        var o := Offer(ExtractEvent(extraction, parse), chat.text);
        && reply == o.reply
        && pendingEvent == (if o.pending.Some? then old(pendingEvent)[user := o.pending.value]
                            else old(pendingEvent))
    {
      if user !in allowedUsers {
        return AccessDenied, None;
      }
      var history;
      reply, history := Respond(user, text, chat, extraction, parse);
      sent := Some(history);
    }

    /** `message_handler` for an authorized user: the history is recorded,
        then a failed call is reported and a reply goes through the offer. */
    method Respond(user: UserId, text: string, chat: AiOutcome, extraction: AiOutcome,
                   parse: string -> Option<EventData>)
      returns (reply: ChatReply, sent: seq<Turn>)
      requires Valid() && user in allowedUsers
      modifies this`chatHistories, this`pendingEvent
      ensures Valid()
      ensures
        var stored := if user in old(chatHistories) then old(chatHistories)[user] else [];
        && reply != AccessDenied
        && sent == SentHistory(stored, text)
        && chatHistories == old(chatHistories)[user := StoreExchange(stored, Exchange(text, StoredReply(chat)))]
      ensures chat.AiFailure? ==> reply == AiError && unchanged(this`pendingEvent)
      ensures chat.AiReply? ==>
        var o := Offer(ExtractEvent(extraction, parse), chat.text);
        && reply == o.reply
        && pendingEvent == (if o.pending.Some? then old(pendingEvent)[user := o.pending.value]
                            else old(pendingEvent))
    {
      sent := RecordExchange(user, text, chat);
      if chat.AiFailure? {
        reply := AiError;
      } else {
        var event := ExtractEvent(extraction, parse);
        reply := OfferEvent(user, event, chat.text);
      }
    }

    /** The history part of `message_handler`: the user turn is appended,
        the history cut to 20 and stored (so it stays even when the model
        call fails), and a successful reply is appended after the cut.
        Returns the history sent to the model. */
    method RecordExchange(user: UserId, text: string, chat: AiOutcome) returns (sent: seq<Turn>)
      requires HistoriesBounded() && user in allowedUsers
      modifies this`chatHistories
      ensures HistoriesBounded()
      ensures
        var stored := if user in old(chatHistories) then old(chatHistories)[user] else [];
        && sent == SentHistory(stored, text)
        && chatHistories == old(chatHistories)[user := StoreExchange(stored, Exchange(text, StoredReply(chat)))]
    {
      var stored := if user in chatHistories then chatHistories[user] else [];
      var history := stored + [Turn(User, text)];
      if |history| > MaxHistory {
        history := history[|history| - MaxHistory..];
      }
      chatHistories := chatHistories[user := history];
      sent := history;
      ghost var afterUser := chatHistories;
      if chat.AiReply? {
        chatHistories := chatHistories[user := history + [Turn(Assistant, chat.text)]];
      }
      RecordStep(old(chatHistories), user, text, chat, history, afterUser, chatHistories);
      StoreKeepsBounded(old(chatHistories), allowedUsers, user,
                        StoreExchange(stored, Exchange(text, StoredReply(chat))), chatHistories);
    }

    /** The offer step of `message_handler`, on the event extracted from the
        reply: see `Offer`. */
    method OfferEvent(user: UserId, event: Option<EventData>, botReply: string) returns (reply: ChatReply)
      requires event.Some? ==> event.value.found
      requires PendingOfferable()
      modifies this`pendingEvent
      ensures PendingOfferable()
      ensures reply != AccessDenied
      ensures
        var o := Offer(event, botReply);
        && reply == o.reply
        && pendingEvent == (if o.pending.Some? then old(pendingEvent)[user := o.pending.value]
                            else old(pendingEvent))
    {
      var o := Offer(event, botReply);
      if o.pending.Some? {
        pendingEvent := pendingEvent[user := o.pending.value];
      }
      reply := o.reply;
    }

    /** `gmail_command`. `emails` is what `search_gmail('newer_than:2d', 15)`
        returned (an empty list also stands for its failure); `replies(i)`
        is the model's answer to the extraction prompt for email i. The
        batch is stored only when events were found and the preview could
        be formatted; otherwise the earlier batch stays. */
    method GmailCommand(user: UserId, emails: seq<Email>, lower: string -> string,
                        replies: nat -> AiOutcome, parse: string -> Option<EventData>)
      returns (reply: GmailReply)
      requires Valid()
      modifies this`foundEvents
      ensures Valid()
      ensures user !in allowedUsers ==> reply == GmailDenied
      ensures user in allowedUsers && (google.None? || !google.value.connected) ==>
        reply == GoogleNotConnected
      ensures user in allowedUsers && google.Some? && google.value.connected && emails == [] ==>
        reply == NoNewEmails
      // After the guards, the reply and the stored batch follow the scan.
      ensures user in allowedUsers && google.Some? && google.value.connected && emails != [] ==>
        var found := Scan(emails, keywords, lower, replies, parse);
        && (found == [] ==> reply == NoEventsInMail)
        && (found != [] && Preview(found).None? ==> reply == GmailCrashed)
        && (found != [] && Preview(found).Some? ==>
              && reply == EventsFound(|found|, Preview(found).value)
              && foundEvents == old(foundEvents)[user := found])
      ensures reply.EventsFound? ==>
        && user in foundEvents && reply.total == |foundEvents[user]| > 0
        && Preview(foundEvents[user]) == Some(reply.preview)
        && foundEvents == old(foundEvents)[user := foundEvents[user]]
      ensures reply.EventsFound? ==> forall k :: 0 <= k < |foundEvents[user]| ==>
        && foundEvents[user][k].email in emails
        && MatchesKeyword(MailText(foundEvents[user][k].email), keywords, lower)
        && foundEvents[user][k].event.found
      ensures !reply.EventsFound? ==> foundEvents == old(foundEvents)
    {
      if user !in allowedUsers {
        return GmailDenied;
      }
      if google.None? || !google.value.connected {
        return GoogleNotConnected;
      }
      if |emails| == 0 {
        return NoNewEmails;
      }
      var found, _ := ScanEmails(emails, keywords, lower, replies, parse);
      if |found| == 0 {
        return NoEventsInMail;
      }
      var preview := Preview(found);
      if preview.None? {
        return GmailCrashed;
      }
      var origins := ScanOrigins(emails, |emails|, keywords, lower, replies, parse);
      forall k | 0 <= k < |found|
        ensures found[k].email in emails && MatchesKeyword(MailText(found[k].email), keywords, lower)
        ensures found[k].event.found
      {
        assert Matching(emails, origins[k], keywords, lower);
      }
      foundEvents := foundEvents[user := found];
      reply := EventsFound(|found|, preview.value);
    }

    /** `button_callback` for the user who pressed the button. It changes no
        state: in particular the pending event is not cleared after a
        confirm. `inserted(i)` is the outcome of the remote insert for batch
        item i; the single confirm uses `inserted(0)`. */
    method ButtonCallback(user: UserId, data: string, parseStart: string -> Option<int>,
                          inserted: nat -> bool)
      returns (reply: CallbackReply)
      requires Valid()
      ensures data == CreateAllData && (user !in foundEvents || foundEvents[user] == []) ==>
        reply == NoEventsToCreate
      ensures data == CreateAllData && user in foundEvents && foundEvents[user] != [] ==>
        && (reply == CallbackCrashed <==> exists i :: RaisesAt(foundEvents[user], google, i))
        && (reply != CallbackCrashed ==> reply.CreatedCount?)
        && (reply != CallbackCrashed && google.Some? ==>
              reply.created == CountCreated(foundEvents[user], google.value, parseStart, inserted))
        && (reply != CallbackCrashed && google.None? ==> reply.created == 0)
      ensures data == ShowCalendarData ==> reply == LoadingCalendar
      ensures data != CreateAllData && data != ShowCalendarData && StartsWith(data, CreateEventPrefix) ==>
        reply == ConfirmPending(if user in pendingEvent then Some(pendingEvent[user]) else None,
                                google, parseStart, inserted(0))
      ensures data != CreateAllData && data != ShowCalendarData && !StartsWith(data, CreateEventPrefix) ==>
        reply == Ignored
    {
      if data == CreateAllData {
        var items := if user in foundEvents then foundEvents[user] else [];
        if |items| == 0 {
          return NoEventsToCreate;
        }
        reply := CreateAll(items, google, parseStart, inserted);
      } else if data == ShowCalendarData {
        reply := LoadingCalendar;
      } else if StartsWith(data, CreateEventPrefix) {
        var pending := if user in pendingEvent then Some(pendingEvent[user]) else None;
        reply := ConfirmPending(pending, google, parseStart, inserted(0));
      } else {
        reply := Ignored;
      }
    }
  }

  /** A second update of the same key overrides the first. */
  lemma UpdateTwice<K, V>(m: map<K, V>, k: K, a: V, b: V)
    ensures m[k := a][k := b] == m[k := b]
  {
  }

  /** The history steps of `message_handler`, on values: appending the user
      turn, cutting to 20, storing, then appending the reply is one
      `StoreExchange` step on the user's history. */
  lemma RecordStep(h: map<UserId, seq<Turn>>, user: UserId, text: string, chat: AiOutcome,
                   sent: seq<Turn>, h1: map<UserId, seq<Turn>>, h2: map<UserId, seq<Turn>>)
    requires
      var full := (if user in h then h[user] else []) + [Turn(User, text)];
      sent == (if |full| > MaxHistory then full[|full| - MaxHistory..] else full)
    requires h1 == h[user := sent]
    requires h2 == if chat.AiReply? then h1[user := sent + [Turn(Assistant, chat.text)]] else h1
    ensures
      var stored := if user in h then h[user] else [];
      && sent == SentHistory(stored, text)
      && h2 == h[user := StoreExchange(stored, Exchange(text, StoredReply(chat)))]
  {
    if chat.AiReply? {
      UpdateTwice(h, user, sent, sent + [Turn(Assistant, chat.text)]);
    }
  }

  /** Storing a history of at most 21 turns for an authorized user keeps
      every history bounded and authorized. */
  lemma StoreKeepsBounded(h: map<UserId, seq<Turn>>, allowed: seq<UserId>, user: UserId,
                          v: seq<Turn>, h': map<UserId, seq<Turn>>)
    requires forall u :: u in h ==> u in allowed && |h[u]| <= MaxHistory + 1
    requires user in allowed && |v| <= MaxHistory + 1
    requires h' == h[user := v]
    ensures forall u :: u in h' ==> u in allowed && |h'[u]| <= MaxHistory + 1
  {
  }

  lemma AppendIncreasing(s: seq<nat>, i: nat)
    requires StrictlyIncreasing(s)
    requires forall j :: j in s ==> j < i
    ensures StrictlyIncreasing(s + [i])
  {
    forall a, b | 0 <= a < b < |s| + 1 ensures (s + [i])[a] < (s + [i])[b] {
      if b == |s| {
        assert s[a] in s;
      }
    }
  }

}
