/** Noticing that a participant is stuck. The detector keeps trimmed queues per session;
    the specification is a plain function of everything that was ever observed. Times are
    integers in one unit, `SECOND` of them to a second. */
module StuckDetector {

  type Time = int
  const SECOND: int := 1_000_000

  datatype Option<+T> = None | Some(value: T)

  datatype StuckReason =
    | IDLE | URL_LOOP | SCROLL_LOOP | ROUTE_DEPARTURE | PARTIAL_FORM_IDLE | UNKNOWN_SENSITIVE_REQUEST | EXPLICIT_HELP

  /** The event types the detector reads, with the payload fields it looks at. */
  datatype Kind =
    | HelpRequested
    | Navigation(knownRouteDeparture: bool)
    | FormProgress(partlyFilled: bool, sensitive: bool)
    | UserAction
    | Verification(verified: bool)
    | Interaction(productive: bool, scroll: Option<real>)
    | OtherEvent

  /** One call of `observe`. */
  datatype Observation = Observation(at: Time, page: string, kind: Kind, knownTask: bool, knownSite: bool)

  // ------------------------------------------------------------------ the history specification

  predicate Productive(o: Observation) {
    o.kind.UserAction? || o.kind.Verification? || (o.kind.Interaction? && o.kind.productive)
  }

  predicate Scrolls(o: Observation) {
    o.kind.Interaction? && o.kind.scroll.Some?
  }

  function Abs(x: real): real {
    if x < 0.0 then -x else x
  }

  /** Everything observed in one session, the newest last. */
  datatype History = Nothing | Then(before: History, last: Observation)

  /** The visits to a page not earlier than `since`, over the whole history. */
  function VisitsSince(h: History, page: string, since: Time): seq<Time> {
    if h.Nothing? then []
    else
      VisitsSince(h.before, page, since)
      + (if h.last.kind.Navigation? && h.last.page == page && h.last.at >= since then [h.last.at] else [])
  }

  /** The scrolls not earlier than `since` that no productive event came after. */
  function ScrollsSince(h: History, since: Time): seq<(Time, real)> {
    if h.Nothing? then []
    else
      (if Productive(h.last) then [] else ScrollsSince(h.before, since))
      + (if Scrolls(h.last) && h.last.at >= since then [(h.last.at, Abs(h.last.kind.scroll.value))] else [])
  }

  function Distance(scrolls: seq<(Time, real)>): real
    decreases |scrolls|
  {
    if scrolls == [] then 0.0 else scrolls[0].1 + Distance(scrolls[1..])
  }

  /** The last navigation or productive event, or the first observation of all. */
  function LastProductive(h: History): Time
    requires h.Then?
  {
    if h.last.kind.Navigation? || Productive(h.last) || h.before.Nothing? then h.last.at else LastProductive(h.before)
  }

  /** When a form was last left partly filled, unless a verified step came after. */
  function PartlyFilledAt(h: History): Option<Time> {
    if h.Nothing? then None
    else if h.last.kind.FormProgress? && h.last.kind.partlyFilled then Some(h.last.at)
    else if h.last.kind.Verification? && h.last.kind.verified then None
    else PartlyFilledAt(h.before)
  }

  /** What the event itself says: a loop of visits, a departure, an unknown sensitive
      request, a loop of scrolls. */
  function EventReason(o: Observation, visits: nat, scrolls: seq<(Time, real)>): Option<StuckReason> {
    if o.kind.HelpRequested? then Some(EXPLICIT_HELP)
    else if o.kind.Navigation? && visits >= 3 then Some(URL_LOOP)
    else if o.kind.Navigation? && o.kind.knownRouteDeparture then Some(ROUTE_DEPARTURE)
    else if o.kind.FormProgress? && o.kind.sensitive && !o.knownSite then Some(UNKNOWN_SENSITIVE_REQUEST)
    else if Scrolls(o) && |scrolls| >= 4 && Distance(scrolls) >= 3.0 then Some(SCROLL_LOOP)
    else None
  }

  /** What the clock says: an unfinished form or nothing productive for too long. */
  function OverdueReason(o: Observation, partlyFilledAt: Option<Time>, lastProductiveAt: Time): Option<StuckReason> {
    if partlyFilledAt.Some? && o.at - partlyFilledAt.value >= 40 * SECOND then Some(PARTIAL_FORM_IDLE)
    else if o.at - lastProductiveAt >= (if o.knownTask then 45 else 60) * SECOND then Some(IDLE)
    else None
  }

  /** The reason an observation gives, in order of priority. */
  function Decide(o: Observation, visits: nat, scrolls: seq<(Time, real)>, partlyFilledAt: Option<Time>,
                  lastProductiveAt: Time): Option<StuckReason> {
    var reason := EventReason(o, visits, scrolls);
    if reason.Some? then reason else OverdueReason(o, partlyFilledAt, lastProductiveAt)
  }

  /** The reason the last observation gives, from the whole history. */
  function Expected(h: History): Option<StuckReason>
    requires h.Then?
  {
    Decide(h.last, |VisitsSince(h, h.last.page, h.last.at - 120 * SECOND)|, ScrollsSince(h, h.last.at - 20 * SECOND),
           PartlyFilledAt(h), LastProductive(h))
  }

  /** The clock never ran backwards. */
  predicate InOrder(h: History) {
    h.Then? && h.before.Then? ==> h.before.last.at <= h.last.at && InOrder(h.before)
  }

  // ------------------------------------------------------------------ the trimmed queues

  /** Drops the front of a queue while it is too old; the rest is not looked at. */
  function DropOld(queue: seq<Time>, cutoff: Time): seq<Time>
    decreases |queue|
  {
    if queue != [] && queue[0] < cutoff then DropOld(queue[1..], cutoff) else queue
  }

  function DropOldScrolls(queue: seq<(Time, real)>, cutoff: Time): seq<(Time, real)>
    decreases |queue|
  {
    if queue != [] && queue[0].0 < cutoff then DropOldScrolls(queue[1..], cutoff) else queue
  }

  /** The queues of all pages; a queue is trimmed only when it is appended to. */
  function Queues(h: History): map<string, seq<Time>> {
    if h.Nothing? then map[]
    else if h.last.kind.Navigation?
    then Queues(h.before)[h.last.page :=
           DropOld(Queue(Queues(h.before), h.last.page) + [h.last.at], h.last.at - 120 * SECOND)]
    else Queues(h.before)
  }

  function Queue(queues: map<string, seq<Time>>, page: string): seq<Time> {
    if page in queues then queues[page] else []
  }

  function ScrollQueue(h: History): seq<(Time, real)> {
    if h.Nothing? then []
    else
      var queue := if Productive(h.last) then [] else ScrollQueue(h.before);
      if Scrolls(h.last)
        then DropOldScrolls(queue + [(h.last.at, Abs(h.last.kind.scroll.value))], h.last.at - 20 * SECOND)
      else queue
  }

  class ObservationWindow {
    var lastProductiveAt: Time
    var partlyFilledAt: Option<Time>
    var visits: map<string, seq<Time>>
    var scrolls: seq<(Time, real)>
    ghost var history: History

    /** The fields are exactly the queues and times of the observed history. */
    ghost predicate Valid()
      reads this
    {
      && visits == Queues(history)
      && scrolls == ScrollQueue(history)
      && partlyFilledAt == PartlyFilledAt(history)
      && (history.Then? ==> lastProductiveAt == LastProductive(history))
    }

    constructor (now: Time)
      ensures Valid() && history == Nothing && lastProductiveAt == now
    {
      lastProductiveAt, partlyFilledAt := now, None;
      visits, scrolls, history := map[], [], Nothing;
    }

    /** With times in order the answer is that of the whole history; with any clock it is
        that of the queues. */
    method Observe(o: Observation) returns (reason: Option<StuckReason>)
      requires Valid()
      requires history == Nothing ==> lastProductiveAt == o.at
      modifies this
      ensures Valid() && history == Then(old(history), o)
      ensures reason
        == Decide(o, |Queue(Queues(history), o.page)|, ScrollQueue(history), PartlyFilledAt(history),
          LastProductive(history))
      ensures InOrder(history) ==> reason == Expected(history)
    {
      reason := Step(o);
      if InOrder(history) { ExpectedByQueues(history); }
    }

    method Step(o: Observation) returns (reason: Option<StuckReason>)
      requires Valid()
      requires history == Nothing ==> lastProductiveAt == o.at
      modifies this
      ensures Valid() && history == Then(old(history), o)
      ensures reason
        == Decide(o, |Queue(Queues(history), o.page)|, ScrollQueue(history), PartlyFilledAt(history),
          LastProductive(history))
    {
      reason := Record(o);
      if reason.Some? { return; }
      if partlyFilledAt.Some? && o.at - partlyFilledAt.value >= 40 * SECOND { return Some(PARTIAL_FORM_IDLE); }
      var idleSeconds := if o.knownTask then 45 else 60;
      if o.at - lastProductiveAt >= idleSeconds * SECOND { return Some(IDLE); }
      return None;
    }

    /** Updates the window for one event. */
    method Record(o: Observation) returns (reason: Option<StuckReason>)
      requires Valid()
      requires history == Nothing ==> lastProductiveAt == o.at
      modifies this
      ensures Valid() && history == Then(old(history), o)
      ensures reason == EventReason(o, |Queue(Queues(history), o.page)|, ScrollQueue(history))
    {
      history := Then(history, o);
      if o.kind.HelpRequested? { return Some(EXPLICIT_HELP); }
      if o.kind.Navigation? {
        reason := Visit(o);
        if reason.Some? { return; }
      }
      if o.kind.FormProgress? {
        if o.kind.partlyFilled { partlyFilledAt := Some(o.at); }
        if o.kind.sensitive && !o.knownSite { return Some(UNKNOWN_SENSITIVE_REQUEST); }
      }
      Progress(o);
      if Scrolls(o) {
        scrolls := TrimScrolls(scrolls + [(o.at, Abs(o.kind.scroll.value))], o.at - 20 * SECOND);
        if |scrolls| >= 4 && Distance(scrolls) >= 3.0 { return Some(SCROLL_LOOP); }
      }
      return None;
    }

    /** A navigation joins the queue of its page. */
    method Visit(o: Observation) returns (reason: Option<StuckReason>)
      requires o.kind.Navigation?
      modifies this`visits, this`lastProductiveAt
      ensures var queue := DropOld(Queue(old(visits), o.page) + [o.at], o.at - 120 * SECOND);
        && visits == old(visits)[o.page := queue] && lastProductiveAt == o.at
        && reason == if |queue| >= 3 then Some(URL_LOOP) else if o.kind.knownRouteDeparture then Some(ROUTE_DEPARTURE)
             else None
    {
      var queue := Trim(Queue(visits, o.page) + [o.at], o.at - 120 * SECOND);
      visits := visits[o.page := queue];
      lastProductiveAt := o.at;
      if |queue| >= 3 { return Some(URL_LOOP); }
      if o.kind.knownRouteDeparture { return Some(ROUTE_DEPARTURE); }
      return None;
    }

    /** A productive event forgets the scrolls; a verified step also the unfinished form. */
    method Progress(o: Observation)
      modifies this`lastProductiveAt, this`scrolls, this`partlyFilledAt
      ensures Productive(o) ==> lastProductiveAt == o.at && scrolls == []
      ensures !Productive(o) ==> lastProductiveAt == old(lastProductiveAt) && scrolls == old(scrolls)
      ensures partlyFilledAt == if o.kind.Verification? && o.kind.verified then None else old(partlyFilledAt)
    {
      if Productive(o) {
        lastProductiveAt := o.at;
        scrolls := [];
        if o.kind.Verification? && o.kind.verified { partlyFilledAt := None; }
      }
    }

    method Trim(values: seq<Time>, cutoff: Time) returns (kept: seq<Time>)
      ensures kept == DropOld(values, cutoff)
    {
      kept := values;
      while kept != [] && kept[0] < cutoff
        invariant DropOld(kept, cutoff) == DropOld(values, cutoff)
        decreases |kept|
      {
        kept := kept[1..];
      }
    }
  }

  method TrimScrolls(values: seq<(Time, real)>, cutoff: Time) returns (kept: seq<(Time, real)>)
    ensures kept == DropOldScrolls(values, cutoff)
  {
    kept := values;
    while kept != [] && kept[0].0 < cutoff
      invariant DropOldScrolls(kept, cutoff) == DropOldScrolls(values, cutoff)
      decreases |kept|
    {
      kept := kept[1..];
    }
  }

  // ------------------------------------------------------------------ the queues are filters

  lemma {:induction false} DropTwice(queue: seq<Time>, first: Time, second: Time)
    requires first <= second
    ensures DropOld(DropOld(queue, first), second) == DropOld(queue, second)
    ensures DropOld(DropOld(queue, first), first) == DropOld(queue, first)
    decreases |queue|
  {
    if queue != [] { DropTwice(queue[1..], first, second); }
  }

  lemma {:induction false} DropAppend(queue: seq<Time>, t: Time, cutoff: Time)
    ensures DropOld(queue + [t], cutoff) ==
      if DropOld(queue, cutoff) != [] then DropOld(queue, cutoff) + [t] else if t >= cutoff then [t] else []
    ensures DropOld(queue, cutoff) != [] ==> DropOld(queue, cutoff)[0] >= cutoff
    decreases |queue|
  {
    if queue == [] {
      assert [] + [t] == [t] && [t][1..] == [];
    } else {
      assert (queue + [t])[1..] == queue[1..] + [t];
      DropAppend(queue[1..], t, cutoff);
    }
  }

  lemma {:induction false} DropTwiceScrolls(queue: seq<(Time, real)>, first: Time, second: Time)
    requires first <= second
    ensures DropOldScrolls(DropOldScrolls(queue, first), second) == DropOldScrolls(queue, second)
    ensures DropOldScrolls(DropOldScrolls(queue, first), first) == DropOldScrolls(queue, first)
    decreases |queue|
  {
    if queue != [] { DropTwiceScrolls(queue[1..], first, second); }
  }

  lemma {:induction false} DropAppendScrolls(queue: seq<(Time, real)>, t: (Time, real), cutoff: Time)
    ensures DropOldScrolls(queue + [t], cutoff) ==
      if DropOldScrolls(queue, cutoff) != [] then DropOldScrolls(queue, cutoff) + [t] else if t.0 >= cutoff then [t]
        else []
    ensures DropOldScrolls(queue, cutoff) != [] ==> DropOldScrolls(queue, cutoff)[0].0 >= cutoff
    decreases |queue|
  {
    if queue == [] {
      assert [] + [t] == [t] && [t][1..] == [];
    } else {
      assert (queue + [t])[1..] == queue[1..] + [t];
      DropAppendScrolls(queue[1..], t, cutoff);
    }
  }

  /** With times in order, cutting the front of a trimmed queue is filtering all of history. */
  lemma {:induction false} VisitQueueIsFilter(h: History, page: string, since: Time)
    requires InOrder(h)
    requires h.Then? ==> since >= h.last.at - 120 * SECOND
    ensures DropOld(Queue(Queues(h), page), since) == VisitsSince(h, page, since)
    ensures h.Then? ==> forall t :: t in VisitsSince(h, page, since) ==> t <= h.last.at
    decreases h
  {
    if h.Then? {
      VisitQueueIsFilter(h.before, page, since);
      if h.last.kind.Navigation? && h.last.page == page {
        var queue := Queue(Queues(h.before), page);
        DropTwice(queue + [h.last.at], h.last.at - 120 * SECOND, since);
        DropAppend(queue, h.last.at, since);
        if DropOld(queue, since) != [] { assert DropOld(queue, since)[0] in VisitsSince(h.before, page, since); }
      }
    }
  }

  lemma {:induction false} ScrollQueueIsFilter(h: History, since: Time)
    requires InOrder(h)
    requires h.Then? ==> since >= h.last.at - 20 * SECOND
    ensures DropOldScrolls(ScrollQueue(h), since) == ScrollsSince(h, since)
    ensures h.Then? ==> forall t :: t in ScrollsSince(h, since) ==> t.0 <= h.last.at
    decreases h
  {
    if h.Then? {
      ScrollQueueIsFilter(h.before, since);
      if Scrolls(h.last) {
        var t := (h.last.at, Abs(h.last.kind.scroll.value));
        var queue := if Productive(h.last) then [] else ScrollQueue(h.before);
        DropTwiceScrolls(queue + [t], h.last.at - 20 * SECOND, since);
        DropAppendScrolls(queue, t, since);
        if DropOldScrolls(queue, since) != [] {
          assert DropOldScrolls(queue, since)[0] in ScrollsSince(h.before, since);
        }
      }
    }
  }

  /** Right after a visit the queue of its page is already cut. */
  lemma {:induction false} VisitsByQueue(h: History)
    requires InOrder(h) && h.Then? && h.last.kind.Navigation?
    ensures VisitsSince(h, h.last.page, h.last.at - 120 * SECOND) == Queue(Queues(h), h.last.page)
  {
    var o := h.last;
    VisitQueueIsFilter(h, o.page, o.at - 120 * SECOND);
    DropTwice(Queue(Queues(h.before), o.page) + [o.at], o.at - 120 * SECOND, o.at - 120 * SECOND);
  }

  lemma {:induction false} ScrollsByQueue(h: History)
    requires InOrder(h) && h.Then? && Scrolls(h.last)
    ensures ScrollsSince(h, h.last.at - 20 * SECOND) == ScrollQueue(h)
  {
    var o := h.last;
    ScrollQueueIsFilter(h, o.at - 20 * SECOND);
    var queue := if Productive(o) then [] else ScrollQueue(h.before);
    DropTwiceScrolls(queue + [(o.at, Abs(o.kind.scroll.value))], o.at - 20 * SECOND, o.at - 20 * SECOND);
  }

  /** With times in order, deciding from the queues is deciding from the whole history. */
  lemma {:induction false} ExpectedByQueues(h: History)
    requires InOrder(h) && h.Then?
    ensures Expected(h)
      == Decide(h.last, |Queue(Queues(h), h.last.page)|, ScrollQueue(h), PartlyFilledAt(h), LastProductive(h))
  {
    if h.last.kind.Navigation? { VisitsByQueue(h); }
    if Scrolls(h.last) { ScrollsByQueue(h); }
  }

  function VisitAt(seconds: int): Observation {
    Observation(seconds * SECOND, "page", Navigation(false), true, true)
  }

  /** The order of times matters: after a clock that ran backwards a stale visit stays
      behind a newer one in the queue and is still counted. */
  lemma BackwardClockBreaks()
    ensures var h := Then(Then(Then(Nothing, VisitAt(200)), VisitAt(0)), VisitAt(250));
      && Expected(h) == None
      && EventReason(h.last, |Queue(Queues(h), "page")|, ScrollQueue(h)) == Some(URL_LOOP)
  {
    var h1 := Then(Nothing, VisitAt(200));
    var h2 := Then(h1, VisitAt(0));
    var h := Then(h2, VisitAt(250));
    assert Queue(Queues(Nothing), "page") == [] && [] + [200 * SECOND] == [200 * SECOND];
    assert Queue(Queues(h1), "page") == [200 * SECOND];
    assert Queue(Queues(h2), "page") == [200 * SECOND, 0];
    assert Queue(Queues(h), "page") == [200 * SECOND, 0, 250 * SECOND];
    assert VisitsSince(Nothing, "page", 130 * SECOND) == [];
    assert VisitsSince(h1, "page", 130 * SECOND) == [200 * SECOND];
    assert VisitsSince(h2, "page", 130 * SECOND) == [200 * SECOND];
    assert VisitsSince(h, "page", 130 * SECOND) == [200 * SECOND, 250 * SECOND];
  }

  // ------------------------------------------------------------------ all sessions

  class StuckDetector {
    var windows: map<string, ObservationWindow>

    ghost predicate Valid()
      reads this, windows.Values
    {
      && (forall s :: s in windows ==> windows[s].Valid() && windows[s].history.Then?)
      && (forall s, t :: s in windows && t in windows && s != t ==> windows[s] != windows[t])
    }

    /** Everything observed so far in one session. */
    ghost function Observed(session: string): History
      reads this, windows.Values
    {
      if session in windows then windows[session].history else Nothing
    }

    constructor ()
      ensures Valid() && forall s :: Observed(s) == Nothing
    {
      windows := map[];
    }

    method Observe(session: string, o: Observation) returns (reason: Option<StuckReason>)
      requires Valid()
      modifies this, windows.Values
      ensures Valid() && fresh(windows.Values - old(windows.Values))
      ensures Observed(session) == Then(old(Observed(session)), o)
      ensures forall s :: s != session ==> Observed(s) == old(Observed(s))
      ensures InOrder(Observed(session)) ==> reason == Expected(Observed(session))
    {
      if session !in windows {
        var window := new ObservationWindow(o.at);
        windows := windows[session := window];
      }
      var window := windows[session];
      reason := window.Observe(o);
    }
  }
}
