/** The daily trigger (`scheduledPushNotifications`): which marathons get which notification. */
module Scheduler {
  import opened Wrappers
  import opened Js
  import opened Calendar
  import opened Dispatch
  import opened Subscribers

  /** `toLocaleDateString`, left uninterpreted: whatever string the runtime's locale gives a date. */
  type Formatter = Date -> string

  /** What `toLocaleDateString` gives for `new Date(undefined)`. */
  const InvalidDate: string := "Invalid Date"

  /** The body of the registration-open notification ("registration opens today!"). */
  const RegistrationBody: string := "대회 신청일입니다!"

  /** The body of the day-before notification ("the race is tomorrow! get ready."). */
  const DayBeforeBody: string := "내일 대회가 있습니다! 준비하세요."

  /** The Node.js `TypeError` message when a marathon has no `registrationPeriod`. */
  const MissingPeriodError: string := "Cannot read properties of undefined (reading 'startDate')"

  datatype RegistrationPeriod = RegistrationPeriod(startDate: Option<Date>)

  /** The fields of a `marathons` document that the trigger reads; an absent field is `None`. */
  datatype MarathonData = MarathonData(
    name: Value,
    date: Option<Date>,
    registrationPeriod: Option<RegistrationPeriod>)

  datatype MarathonDoc = MarathonDoc(id: string, data: MarathonData)

  /** `{ success: true }` or `{ success: false, error }`. */
  datatype RunResult = RunSucceeded | RunFailed(error: string)

  /** What processing some events did: the messages handed to the gateway, in order, and
      the message of the exception that stopped the loop, if any. */
  datatype Step = Step(dispatched: seq<Message>, error: Option<string>)

  /** The values fixed before the loop starts. */
  datatype Context = Context(todayStr: string, tomorrowStr: string, fmt: Formatter, users: UserStore)

  /** `getFormattedDate`: `new Date(date).toLocaleDateString()`. */
  function FormattedDate(fmt: Formatter, d: Option<Date>): (s: string)
  {
    match d
    case None => InvalidDate
    case Some(date) => fmt(date)
  }

  /** The context of a run on `today`; tomorrow is the next calendar day. */
  function MakeContext(today: Date, fmt: Formatter, users: UserStore): (ctx: Context)
    requires Valid(today)
  {
    Context(fmt(today), fmt(Successor(today)), fmt, users)
  }

  /** The message of a scheduled call `sendPushNotification(name, text, tokens)`: with three
      arguments to four parameters, the token list binds to `icon` and `tokens` is undefined. */
  function ScheduledMessage(name: Value, text: string, tokens: seq<Value>): (m: Message)
  {
    BuildMessage(name, Str(text), Array(tokens), Undefined)
  }

  predicate RegistrationDue(ctx: Context, doc: MarathonDoc)
    requires doc.data.registrationPeriod.Some?
  {
    FormattedDate(ctx.fmt, doc.data.registrationPeriod.value.startDate) == ctx.todayStr
  }

  predicate DayBeforeDue(ctx: Context, doc: MarathonDoc)
  {
    FormattedDate(ctx.fmt, doc.data.date) == ctx.tomorrowStr
  }

  /** One triggered condition: resolve the subscribers, then dispatch only to a non-empty list. */
  function Notify(users: UserStore, doc: MarathonDoc, text: string): (r: Step)
    ensures |r.dispatched| <= 1
  {
    match GetSubscribers(users, doc.id)
    case Err(message) => Step([], Some(message))
    case Ok(tokens) =>
      if |tokens| > 0 then Step([ScheduledMessage(doc.data.name, text, tokens)], None)
      else Step([], None)
  }

  /** One iteration of the loop: the registration check, then the day-before check. */
  function ProcessEvent(ctx: Context, doc: MarathonDoc): (r: Step)
    ensures |r.dispatched| <= 2
  {
    if doc.data.registrationPeriod.None? then Step([], Some(MissingPeriodError))
    else
      var first := if RegistrationDue(ctx, doc) then Notify(ctx.users, doc, RegistrationBody) else Step([], None);
      if first.error.Some? then first
      else
        var second := if DayBeforeDue(ctx, doc) then Notify(ctx.users, doc, DayBeforeBody) else Step([], None);
        Step(first.dispatched + second.dispatched, second.error)
  }

  /** The loop over the snapshot's documents, which stops at the first exception. */
  function Schedule(ctx: Context, docs: seq<MarathonDoc>): (r: Step)
  {
    if |docs| == 0 then Step([], None)
    else
      var done := Schedule(ctx, docs[..|docs| - 1]);
      if done.error.Some? then done
      else
        var last := ProcessEvent(ctx, docs[|docs| - 1]);
        Step(done.dispatched + last.dispatched, last.error)
  }

  /** A whole run: the result and the messages sent, given today's date, the formatter, the
      `marathons` query's outcome and the `users` store. The push gateway does not appear:
      a dispatch never throws, so the run does not depend on what the gateway answers. */
  function ScheduledRun(today: Date, fmt: Formatter, marathons: Result<seq<MarathonDoc>>, users: UserStore)
    : (run: (RunResult, seq<Message>))
    requires Valid(today)
  {
    match marathons
    case Err(message) => (RunFailed(message), [])
    case Ok(docs) =>
      var s := Schedule(MakeContext(today, fmt, users), docs);
      (if s.error.None? then RunSucceeded else RunFailed(s.error.value), s.dispatched)
  }

  /** The scheduled function's body. `marathons` is what `marathonsRef.get()` gave, `users`
      what every `users` query of the run sees, `gateway` the push gateway. Returns the run's
      result and, in order, every message handed to the gateway. */
  method ScheduledPushNotifications(
    today: Date, fmt: Formatter, marathons: Result<seq<MarathonDoc>>, users: UserStore, gateway: Gateway)
    returns (result: RunResult, dispatched: seq<Message>)
    requires Valid(today)
    ensures (result, dispatched) == ScheduledRun(today, fmt, marathons, users)
  {
    var tomorrow := Successor(today);
    var todayStr := FormattedDate(fmt, Some(today));
    var tomorrowStr := FormattedDate(fmt, Some(tomorrow));
    ghost var ctx := Context(todayStr, tomorrowStr, fmt, users);
    dispatched := [];
    if marathons.Err? {
      result := RunFailed(marathons.message);
      return;
    }
    var docs := marathons.value;
    for i := 0 to |docs|
      invariant Schedule(ctx, docs[..i]) == Step(dispatched, None)
    {
      var doc := docs[i];
      assert docs[..i + 1][..i] == docs[..i];
      if doc.data.registrationPeriod.None? {
        result := RunFailed(MissingPeriodError);
        AbortAt(ctx, docs, i);
        assert ProcessEvent(ctx, doc) == Step([], Some(MissingPeriodError));
        assert dispatched + [] == dispatched;
        return;
      }
      var registrationStartDateStr := FormattedDate(fmt, doc.data.registrationPeriod.value.startDate);
      var first, second := [], [];
      if registrationStartDateStr == todayStr {
        var error;
        first, error := NotifySubscribers(users, doc, RegistrationBody, gateway);
        if error.Some? {
          result, dispatched := RunFailed(error.value), dispatched + first;
          AbortAt(ctx, docs, i);
          return;
        }
      }
      var eventDateStr := FormattedDate(fmt, doc.data.date);
      if eventDateStr == tomorrowStr {
        var error;
        second, error := NotifySubscribers(users, doc, DayBeforeBody, gateway);
        if error.Some? {
          result, dispatched := RunFailed(error.value), dispatched + first + second;
          AbortAt(ctx, docs, i);
          return;
        }
      }
      dispatched := dispatched + first + second;
    }
    assert docs[..|docs|] == docs;
    result := RunSucceeded;
  }

  /** The body of either `if` in the loop: resolve the subscribers (which may throw), and
      dispatch only when the list is non-empty. Returns the messages sent and the exception. */
  method NotifySubscribers(users: UserStore, doc: MarathonDoc, text: string, gateway: Gateway)
    returns (sent: seq<Message>, error: Option<string>)
    ensures Step(sent, error) == Notify(users, doc, text)
    ensures error.Some? <==> users.Unreachable?
    ensures |sent| <= 1
  {
    sent, error := [], None;
    var tokens := GetSubscribers(users, doc.id);
    if tokens.Err? {
      error := Some(tokens.message);
      return;
    }
    if |tokens.value| > 0 {
      // the gateway's answer is awaited and discarded
      var m := ScheduledMessage(doc.data.name, text, tokens.value);
      var _ := SendPushNotification(m.data.title, m.data.body, m.data.icon, m.tokens, gateway);
      sent := [m];
    }
  }

  // ----- The loop: order, abort, count -----

  /** Running two stretches of the snapshot one after the other: the second is processed only
      when the first raised nothing, and its messages follow the first's. */
  lemma {:induction false} ScheduleAppend(ctx: Context, a: seq<MarathonDoc>, b: seq<MarathonDoc>)
    ensures Schedule(ctx, a + b) ==
      if Schedule(ctx, a).error.Some? then Schedule(ctx, a)
      else Step(Schedule(ctx, a).dispatched + Schedule(ctx, b).dispatched, Schedule(ctx, b).error)
  {
    if |b| == 0 {
      assert a + b == a;
    } else {
      var b' := b[..|b| - 1];
      ScheduleAppend(ctx, a, b');
      assert (a + b)[..|a + b| - 1] == a + b';
      assert (a + b)[|a + b| - 1] == b[|b| - 1];
    }
  }

  /** An exception while processing event `k`, after the earlier events went through, ends the
      run there: events after `k` are never looked at. */
  lemma AbortAt(ctx: Context, docs: seq<MarathonDoc>, k: nat)
    requires k < |docs|
    requires Schedule(ctx, docs[..k]).error.None?
    requires ProcessEvent(ctx, docs[k]).error.Some?
    ensures Schedule(ctx, docs) ==
      Step(Schedule(ctx, docs[..k]).dispatched + ProcessEvent(ctx, docs[k]).dispatched,
           ProcessEvent(ctx, docs[k]).error)
  {
    ScheduleAppend(ctx, docs[..k + 1], docs[k + 1..]);
    assert docs[..k + 1] + docs[k + 1..] == docs;
    assert docs[..k + 1][..k] == docs[..k];
  }

  /** The loop finishes without an exception exactly when no event raises one. */
  lemma {:induction false} ScheduleSucceedsIff(ctx: Context, docs: seq<MarathonDoc>)
    ensures Schedule(ctx, docs).error.None? <==>
      forall i :: 0 <= i < |docs| ==> ProcessEvent(ctx, docs[i]).error.None?
  {
    if |docs| > 0 {
      var init := docs[..|docs| - 1];
      ScheduleSucceedsIff(ctx, init);
      assert forall i :: 0 <= i < |init| ==> init[i] == docs[i];
    }
  }

  /** Each event yields at most two dispatches, so a run makes at most two per event. */
  lemma {:induction false} ScheduleDispatchBound(ctx: Context, docs: seq<MarathonDoc>)
    ensures forall i :: 0 <= i < |docs| ==> |ProcessEvent(ctx, docs[i]).dispatched| <= 2
    ensures |Schedule(ctx, docs).dispatched| <= 2 * |docs|
  {
    if |docs| > 0 {
      ScheduleDispatchBound(ctx, docs[..|docs| - 1]);
    }
  }

  /** The shape of every scheduled message: one of the two fixed bodies, a non-empty list of
      truthy tokens bound to `icon`, and no `tokens` field. */
  predicate IsScheduledDispatch(m: Message)
  {
    && (m.data.body == Str(RegistrationBody) || m.data.body == Str(DayBeforeBody))
    && m.data.icon.Array? && |m.data.icon.items| > 0
    && (forall k :: 0 <= k < |m.data.icon.items| ==> Truthy(m.data.icon.items[k]))
    && m.tokens == Undefined
  }

  /** No gateway call goes out with an empty token list, every scheduled message has the
      recorded argument binding, and with the `users` store failing nothing is sent at all. */
  lemma {:induction false} ScheduledDispatchesWellFormed(ctx: Context, docs: seq<MarathonDoc>)
    ensures forall k :: 0 <= k < |Schedule(ctx, docs).dispatched| ==>
      IsScheduledDispatch(Schedule(ctx, docs).dispatched[k])
    ensures ctx.users.Unreachable? ==> Schedule(ctx, docs).dispatched == []
  {
    if |docs| > 0 {
      ScheduledDispatchesWellFormed(ctx, docs[..|docs| - 1]);
    }
  }

  // ----- One event -----

  /** With the `users` store answering, an event with a registration period raises nothing and
      yields: the registration-open message exactly when its start date formats as today, the
      day-before message exactly when its date formats as tomorrow, each only when the
      subscriber list is non-empty, the registration one first. */
  lemma EventDispatches(ctx: Context, doc: MarathonDoc)
    requires ctx.users.Reachable? && doc.data.registrationPeriod.Some?
    ensures var s := ProcessEvent(ctx, doc);
      var tokens := SubscriberTokens(ctx.users.users, doc.id);
      var reg := RegistrationDue(ctx, doc) && |tokens| > 0;
      var day := DayBeforeDue(ctx, doc) && |tokens| > 0;
      && s.error.None?
      && |s.dispatched| == (if reg then 1 else 0) + (if day then 1 else 0)
      && (reg ==> s.dispatched[0] == ScheduledMessage(doc.data.name, RegistrationBody, tokens))
      && (day ==> s.dispatched[|s.dispatched| - 1] == ScheduledMessage(doc.data.name, DayBeforeBody, tokens))
  {
  }

  /** An event without a registration period raises a `TypeError` before any check. */
  lemma EventWithoutPeriodAborts(ctx: Context, doc: MarathonDoc)
    requires doc.data.registrationPeriod.None?
    ensures ProcessEvent(ctx, doc) == Step([], Some(MissingPeriodError))
  {
  }

  /** With the `users` store failing, an event sends nothing, and raises the wrapped resolver
      error exactly when one of its two conditions holds. */
  lemma EventWithStoreFailure(ctx: Context, doc: MarathonDoc)
    requires ctx.users.Unreachable? && doc.data.registrationPeriod.Some?
    ensures ProcessEvent(ctx, doc).dispatched == []
    ensures ProcessEvent(ctx, doc).error.Some? <==> RegistrationDue(ctx, doc) || DayBeforeDue(ctx, doc)
    ensures ProcessEvent(ctx, doc).error.Some? ==> ProcessEvent(ctx, doc).error.value == RetrievalError
  {
  }

  /** When the formatter tells dates apart and never yields "Invalid Date", the string
      comparisons are calendar-date comparisons: registration opens today, the race is tomorrow. */
  lemma DueIffSameDay(today: Date, fmt: Formatter, users: UserStore, doc: MarathonDoc)
    requires Valid(today)
    requires forall a: Date, b: Date :: fmt(a) == fmt(b) ==> a == b
    requires forall a: Date :: fmt(a) != InvalidDate
    ensures doc.data.registrationPeriod.Some? ==>
      (RegistrationDue(MakeContext(today, fmt, users), doc) <==>
       doc.data.registrationPeriod.value.startDate == Some(today))
    ensures DayBeforeDue(MakeContext(today, fmt, users), doc) <==> doc.data.date == Some(Successor(today))
  {
  }

  // ----- A whole run -----

  /** The run's result: the `marathons` query's own error, else success exactly when no event
      raised an exception. */
  lemma RunResultIff(today: Date, fmt: Formatter, marathons: Result<seq<MarathonDoc>>, users: UserStore)
    requires Valid(today)
    ensures marathons.Err? ==> ScheduledRun(today, fmt, marathons, users) == (RunFailed(marathons.message), [])
    ensures marathons.Ok? ==>
      (ScheduledRun(today, fmt, marathons, users).0 == RunSucceeded <==>
       forall i :: 0 <= i < |marathons.value| ==>
         ProcessEvent(MakeContext(today, fmt, users), marathons.value[i]).error.None?)
  {
    if marathons.Ok? {
      ScheduleSucceedsIff(MakeContext(today, fmt, users), marathons.value);
    }
  }

  /** One marathon whose registration opens today and whose race is not tomorrow, three
      subscribers with tokens: one call, with the three tokens, the name and the registration body. */
  lemma RegistrationOpenScenario(today: Date, fmt: Formatter, id: string, name: string, t1: string, t2: string, t3: string)
    requires Valid(today)
    requires fmt(today) != fmt(Successor(today))
    requires t1 != "" && t2 != "" && t3 != ""
    ensures
      var doc := MarathonDoc(id, MarathonData(Str(name), Some(today), Some(RegistrationPeriod(Some(today)))));
      var following := Array([Str(id)]);
      var users := Reachable([UserDoc(Str(t1), following), UserDoc(Str(t2), following), UserDoc(Str(t3), following)]);
      ScheduledRun(today, fmt, Ok([doc]), users) ==
        (RunSucceeded, [ScheduledMessage(Str(name), RegistrationBody, [Str(t1), Str(t2), Str(t3)])])
  {
    var doc := MarathonDoc(id, MarathonData(Str(name), Some(today), Some(RegistrationPeriod(Some(today)))));
    var following := Array([Str(id)]);
    var us := [UserDoc(Str(t1), following), UserDoc(Str(t2), following), UserDoc(Str(t3), following)];
    assert us[..2][..1][..0] == [];
    assert SubscriberTokens(us[..1], id) == [Str(t1)];
    assert SubscriberTokens(us[..2], id) == [Str(t1), Str(t2)];
    assert SubscriberTokens(us, id) == [Str(t1), Str(t2), Str(t3)];
    assert [doc][..0] == [];
    var ctx := MakeContext(today, fmt, Reachable(us));
    assert RegistrationDue(ctx, doc) && !DayBeforeDue(ctx, doc);
    var msg := ScheduledMessage(Str(name), RegistrationBody, [Str(t1), Str(t2), Str(t3)]);
    assert ProcessEvent(ctx, doc) == Step([msg], None);
    assert [] + [msg] == [msg];
    assert Schedule(ctx, [doc]) == Step([msg], None);
    assert ScheduledRun(today, fmt, Ok([doc]), Reachable(us)) == (RunSucceeded, [msg]);
  }
}
