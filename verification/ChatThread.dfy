/** An open conversation: its messages, and the read watermark under overlapping mark-read requests.

    `World` is the thread, the server's log and watermark, and the mark-read requests between them.
    Requests are served, answered and lost in any order. */
module ChatThread {
  import opened Options
  import opened MessageMerge

  datatype Status = Opening | Ready | Failed

  /** `lastMarked` is what the server has confirmed as read, `markingUpTo` the newest request under
      way (0 for none), `newestSeen` the newest message of the thread. */
  datatype Client = Client(
    messages: seq<Message>,
    nextBefore: Option<int>,
    status: Status,
    lastMarked: int,
    markingUpTo: int,
    newestSeen: int)

  const BLANK := Client([], None, Opening, 0, 0, 0)

  function Max(a: int, b: int): int {
    if a > b then a else b
  }

  /** The greatest sequence of a page, 0 for an empty one. */
  function Newest(items: seq<Message>): int {
    if items == [] then 0 else Max(Newest(items[..|items| - 1]), items[|items| - 1].sequence)
  }

  // ----- The thread's own steps, and whether each sends a mark-read request

  function Mark(c: Client, upTo: int): (Client, bool) {
    if upTo <= c.lastMarked || upTo <= c.markingUpTo then (c, false) else (c.(markingUpTo := upTo), true)
  }

  /** What a poll does last: ask again for anything seen and not confirmed. */
  function AskAgain(c: Client): (Client, bool) {
    if c.newestSeen > c.lastMarked then Mark(c, c.newestSeen) else (c, false)
  }

  function Opened(c: Client, items: seq<Message>, next: Option<int>): (Client, bool) {
    var d := c.(messages := Merge([], items), nextBefore := next, status := Ready, newestSeen := Newest(items));
    if d.newestSeen > 0 then Mark(d, d.newestSeen) else (d, false)
  }

  /** A poll's page: newer messages are taken in and asked for; without any, the poll goes on to
      the summary and asks after that. */
  function Polled(c: Client, items: seq<Message>): (Client, bool) {
    if Newest(items) > c.newestSeen then
      AskAgain(c.(newestSeen := Newest(items), messages := Merge(c.messages, items)))
    else
      (c, false)
  }

  function Older(c: Client, items: seq<Message>, next: Option<int>): Client {
    c.(messages := Merge(c.messages, items), nextBefore := next)
  }

  function Sent(c: Client, x: Message): Client {
    c.(messages := Merge(c.messages, [x]), newestSeen := Max(c.newestSeen, x.sequence))
  }

  /** A mark-read answer: the watermark only ever grows. */
  function Confirm(c: Client, upTo: int, reply: Option<int>): Client {
    c.(lastMarked := Max(c.lastMarked, match reply case Some(r) => r case None => upTo))
  }

  function EndMark(c: Client, upTo: int): Client {
    if c.markingUpTo == upTo then c.(markingUpTo := 0) else c
  }

  method NewestOf(items: seq<Message>) returns (newest: int)
    ensures newest == Newest(items)
  {
    newest := 0;
    for i := 0 to |items|
      invariant newest == Newest(items[..i])
    {
      assert items[..i + 1][..i] == items[..i];
      if items[i].sequence > newest {
        newest := items[i].sequence;
      }
    }
    assert items[..|items|] == items;
  }

  class Thread {
    var messages: seq<Message>
    var nextBefore: Option<int>
    var status: Status
    var lastMarked: int
    var markingUpTo: int
    var newestSeen: int

    function View(): Client
      reads this
    {
      Client(messages, nextBefore, status, lastMarked, markingUpTo, newestSeen)
    }

    constructor ()
      ensures View() == BLANK
    {
      messages, nextBefore, status := [], None, Opening;
      lastMarked, markingUpTo, newestSeen := 0, 0, 0;
    }

    /** Up to the request. */
    method MarkRead(upTo: int) returns (sent: bool)
      modifies this
      ensures (View(), sent) == Mark(old(View()), upTo)
    {
      if upTo <= lastMarked || upTo <= markingUpTo {
        return false;
      }
      markingUpTo := upTo;
      return true;
    }

    /** The answer, before the summary is read again. */
    method MarkAnswered(upTo: int, reply: Option<int>)
      modifies this
      ensures View() == Confirm(old(View()), upTo, reply)
    {
      var confirmed := match reply case Some(r) => r case None => upTo;
      if confirmed > lastMarked {
        lastMarked := confirmed;
      }
    }

    /** The `finally` of a mark-read, whatever became of it. */
    method MarkEnded(upTo: int)
      modifies this
      ensures View() == EndMark(old(View()), upTo)
    {
      if markingUpTo == upTo {
        markingUpTo := 0;
      }
    }

    method LoadAnswered(items: seq<Message>, next: Option<int>) returns (sent: bool)
      modifies this
      ensures (View(), sent) == Opened(old(View()), items, next)
    {
      messages := MergeMessages([], items);
      nextBefore := next;
      status := Ready;
      newestSeen := NewestOf(items);
      sent := false;
      if newestSeen > 0 {
        sent := MarkRead(newestSeen);
      }
    }

    method PollAnswered(items: seq<Message>) returns (changed: bool, sent: bool)
      modifies this
      ensures (View(), sent) == Polled(old(View()), items)
      ensures changed == (Newest(items) > old(newestSeen))
    {
      var newest := NewestOf(items);
      changed := newest > newestSeen;
      sent := false;
      if changed {
        newestSeen := newest;
        messages := MergeMessages(messages, items);
        sent := PollEnds();
      }
    }

    /** The end of a poll, after the summary when there was nothing new. */
    method PollEnds() returns (sent: bool)
      modifies this
      ensures (View(), sent) == AskAgain(old(View()))
    {
      sent := false;
      if newestSeen > lastMarked {
        sent := MarkRead(newestSeen);
      }
    }

    method OlderAnswered(items: seq<Message>, next: Option<int>)
      modifies this
      ensures View() == Older(old(View()), items, next)
    {
      messages := MergeMessages(messages, items);
      nextBefore := next;
    }

    method OnSent(x: Message)
      modifies this
      ensures View() == Sent(old(View()), x)
    {
      messages := MergeMessages(messages, [x]);
      if x.sequence > newestSeen {
        newestSeen := x.sequence;
      }
    }
  }

  // ----- Thread, server and the requests between them

  /** A mark-read request: on its way, served with an answer on its way back, or answered and now
      reading the summary. A served answer may come without a body. */
  datatype Stage = Asked | Served(reply: Option<int>) | Answered

  datatype Request = Request(upTo: int, stage: Stage)

  /** `last` is the newest sequence of the server's log, `read` the server's watermark. */
  datatype World = World(
    client: Client,
    log: ByNumber,
    last: int,
    read: int,
    marks: map<nat, Request>,
    nextId: nat)

  datatype Event =
    | Post(x: Message)
    | LoadOk(items: seq<Message>, next: Option<int>)
    | LoadFails
    | LoadAgain
    | PollPage(items: seq<Message>)
    | PollSummary
    | OlderPage(items: seq<Message>, next: Option<int>)
    | SendOk(x: Message)
    | Serve(id: nat, withBody: bool)
    | MarkOk(id: nat)
    | MarkFails(id: nat)
    | MarkDone(id: nat)
    | ReadElsewhere(upTo: int)

  const START := World(BLANK, map[], 0, 0, map[], 0)

  /** A page the server can have answered with: messages of its log, and where the next one ends. */
  predicate Page(w: World, items: seq<Message>, next: Option<int>) {
    FromLog(items, w.log) && (next.Some? ==> exists x :: x in items && x.sequence == next.value)
  }

  predicate Enabled(w: World, e: Event) {
    match e
    case Post(x) => x.sequence == w.last + 1
    case LoadOk(items, next) => w.client.status == Opening && Page(w, items, next)
    case LoadFails => w.client.status == Opening
    case LoadAgain => w.client.status == Failed
    case PollPage(items) => w.client.status == Ready && FromLog(items, w.log)
    case PollSummary => w.client.status == Ready
    case OlderPage(items, next) =>
      w.client.status == Ready && Page(w, items, next) && w.client.nextBefore.Some?
      && forall x :: x in items ==> x.sequence < w.client.nextBefore.value
    case SendOk(x) => w.client.status == Ready && FromLog([x], w.log)
    case Serve(id, _) => id in w.marks && w.marks[id].stage == Asked
    case MarkOk(id) => id in w.marks && w.marks[id].stage.Served?
    case MarkFails(id) => id in w.marks && !w.marks[id].stage.Answered?
    case MarkDone(id) => id in w.marks && w.marks[id].stage.Answered?
    case ReadElsewhere(_) => true
  }

  /** The thread after a step that may have sent a request for `upTo`. */
  function Sends(w: World, step: (Client, bool), upTo: int): World {
    if step.1 then
      w.(client := step.0, marks := w.marks[w.nextId := Request(upTo, Asked)], nextId := w.nextId + 1)
    else
      w.(client := step.0)
  }

  /** The server caps what it is asked for at its own log, and its watermark only grows. */
  function Advanced(w: World, upTo: int): int {
    Max(w.read, Max(0, if upTo < w.last then upTo else w.last))
  }

  function ServeMark(w: World, id: nat, withBody: bool): World
    requires id in w.marks
  {
    var upTo := w.marks[id].upTo;
    var read := Advanced(w, upTo);
    var reply := if withBody then Some(read) else None;
    w.(read := read, marks := w.marks[id := Request(upTo, Served(reply))])
  }

  function AnswerMark(w: World, id: nat): World
    requires id in w.marks && w.marks[id].stage.Served?
  {
    var m := w.marks[id];
    w.(client := Confirm(w.client, m.upTo, m.stage.reply), marks := w.marks[id := m.(stage := Answered)])
  }

  function DropMark(w: World, id: nat): World
    requires id in w.marks
  {
    w.(client := EndMark(w.client, w.marks[id].upTo), marks := w.marks - {id})
  }

  function Step(w: World, e: Event): World
    requires Enabled(w, e)
  {
    match e
    case Post(x) => w.(log := w.log[x.sequence := x], last := x.sequence)
    case LoadOk(items, next) => Sends(w, Opened(w.client, items, next), Newest(items))
    case LoadFails => w.(client := w.client.(status := Failed))
    case LoadAgain => w.(client := w.client.(status := Opening))
    case PollPage(items) => Sends(w, Polled(w.client, items), Newest(items))
    case PollSummary => Sends(w, AskAgain(w.client), w.client.newestSeen)
    case OlderPage(items, next) => w.(client := Older(w.client, items, next))
    case SendOk(x) => w.(client := Sent(w.client, x))
    case Serve(id, withBody) => ServeMark(w, id, withBody)
    case MarkOk(id) => AnswerMark(w, id)
    case MarkFails(id) => DropMark(w, id)
    case MarkDone(id) => DropMark(w, id)
    case ReadElsewhere(upTo) => w.(read := Advanced(w, upTo))
  }

  predicate Legal(w: World, es: seq<Event>)
    decreases |es|
  {
    es == [] || (Enabled(w, es[0]) && Legal(Step(w, es[0]), es[1..]))
  }

  function Run(w: World, es: seq<Event>): World
    requires Legal(w, es)
    decreases |es|
  {
    if es == [] then w else Run(Step(w, es[0]), es[1..])
  }

  // ----- What every step keeps

  /** The log is numbered 1 to `last`. */
  ghost predicate Numbered(w: World) {
    w.last >= 0 && forall s :: s in w.log <==> 1 <= s <= w.last
  }

  /** The thread shows messages of the log in order, and knows the newest of them. */
  ghost predicate ShowsLog(w: World) {
    && Ascending(w.client.messages)
    && FromLog(w.client.messages, w.log)
    && w.client.newestSeen == Newest(w.client.messages)
    && (w.client.nextBefore.Some? ==> w.client.nextBefore.value <= w.client.newestSeen)
    && (w.client.status != Ready ==> w.client.newestSeen == 0 && w.client.markingUpTo == 0 && w.marks == map[])
  }

  /** What an answer on its way back may say. */
  predicate Honest(w: World, m: Request) {
    match m.stage
    case Asked => true
    case Served(Some(r)) => m.upTo <= r <= w.read
    case Served(None) => m.upTo <= w.read
    case Answered => m.upTo <= w.client.lastMarked
  }

  ghost predicate MarksAreApart(w: World) {
    && 0 <= w.client.lastMarked <= w.read <= w.last
    && 0 <= w.client.markingUpTo
    && 0 <= w.client.newestSeen <= w.last
    && (forall id :: id in w.marks ==>
          && id < w.nextId
          && 1 <= w.marks[id].upTo <= w.client.newestSeen
          && (w.marks[id].upTo == w.client.markingUpTo || w.marks[id].upTo < w.client.newestSeen)
          && Honest(w, w.marks[id]))
    && (forall i, j :: i in w.marks && j in w.marks && i != j ==> w.marks[i].upTo != w.marks[j].upTo)
    && (w.client.markingUpTo != 0 ==> exists id :: id in w.marks && w.marks[id].upTo == w.client.markingUpTo)
  }

  ghost predicate Inv(w: World) {
    Numbered(w) && ShowsLog(w) && MarksAreApart(w)
  }

  lemma StartIsGood()
    ensures Inv(START)
  {
  }

  lemma {:induction false} NewestBounds(items: seq<Message>, bound: int)
    requires bound >= 0 && forall x :: x in items ==> x.sequence <= bound
    ensures 0 <= Newest(items) <= bound
    ensures forall x :: x in items ==> x.sequence <= Newest(items)
    ensures Newest(items) == 0 || exists x :: x in items && x.sequence == Newest(items)
  {
    if items != [] {
      var rest := items[..|items| - 1];
      NewestBounds(rest, bound);
      assert forall x :: x in items <==> x in rest || x == items[|items| - 1];
    }
  }

  /** The newest of a list of positive numbers is pinned by its members. */
  lemma NewestIs(items: seq<Message>, n: int)
    requires n >= 0 && forall x :: x in items ==> x.sequence <= n
    requires n == 0 || exists x :: x in items && x.sequence == n
    ensures Newest(items) == n
  {
    NewestBounds(items, n);
  }

  // The thread's messages

  lemma InLogBounds(w: World, items: seq<Message>)
    requires Numbered(w) && FromLog(items, w.log)
    ensures forall x :: x in items ==> 1 <= x.sequence <= w.last
    ensures 0 <= Newest(items) <= w.last
    ensures forall x :: x in items ==> x.sequence <= Newest(items)
    ensures Newest(items) == 0 || exists x :: x in items && x.sequence == Newest(items)
  {
    NewestBounds(items, w.last);
  }

  /** Merging a page of the log keeps the thread in order, and its newest is the newer of the two. */
  lemma MergeShowsLog(w: World, current: seq<Message>, items: seq<Message>)
    requires Numbered(w) && FromLog(current, w.log) && FromLog(items, w.log)
    ensures var merged := Merge(current, items);
            && Ascending(merged) && FromLog(merged, w.log)
            && Newest(merged) == Max(Newest(current), Newest(items))
            && (forall x :: x in merged <==> x in current || x in items)
  {
    var merged := Merge(current, items);
    forall x
      ensures x in merged <==> x in current || x in items
    {
      MergedMember(current, items, w.log, x);
    }
    MergeIsUnion(current, items);
    InLogBounds(w, current);
    InLogBounds(w, items);
    NewestIs(merged, Max(Newest(current), Newest(items)));
  }

  // Step by step

  lemma PostShows(w: World, x: Message)
    requires Numbered(w) && ShowsLog(w) && x.sequence == w.last + 1
    ensures Numbered(Step(w, Post(x))) && ShowsLog(Step(w, Post(x)))
  {
    assert x.sequence !in w.log;
  }

  lemma PostKeeps(w: World, x: Message)
    requires Inv(w) && x.sequence == w.last + 1
    ensures Inv(Step(w, Post(x)))
  {
    PostShows(w, x);
    var v := Step(w, Post(x));
    forall id | id in v.marks
      ensures Honest(v, v.marks[id])
    {
      assert Honest(w, w.marks[id]);
    }
  }

  /** A request for the newest message is never one of those under way: either the marker shows it,
      or everything under way is older. */
  lemma AskKeeps(w: World)
    requires MarksAreApart(w) && w.client.newestSeen > 0
    ensures MarksAreApart(Sends(w, Mark(w.client, w.client.newestSeen), w.client.newestSeen))
  {
    var upTo := w.client.newestSeen;
    var v := Sends(w, Mark(w.client, upTo), upTo);
    if Mark(w.client, upTo).1 {
      assert v.marks[w.nextId].upTo == v.client.markingUpTo == upTo;
      forall id | id in w.marks
        ensures w.marks[id].upTo < upTo
      {
        assert w.marks[id].upTo == w.client.markingUpTo || w.marks[id].upTo < upTo;
      }
    }
  }

  /** Seeing newer messages only moves the requests under way further behind. */
  lemma NewerKeeps(w: World, c: Client)
    requires MarksAreApart(w)
    requires c.lastMarked == w.client.lastMarked && c.markingUpTo == w.client.markingUpTo
    requires w.client.newestSeen <= c.newestSeen <= w.last
    ensures MarksAreApart(w.(client := c))
  {
    var v := w.(client := c);
    forall id | id in v.marks
      ensures Honest(v, v.marks[id])
    {
      assert Honest(w, w.marks[id]);
    }
  }

  /** The thread's own half of the invariant, when neither the log nor the thread changes. */
  lemma SameThreadShown(w: World, v: World)
    requires Numbered(w) && ShowsLog(w)
    requires v.log == w.log && v.last == w.last
    requires v.client.messages == w.client.messages && v.client.newestSeen == w.client.newestSeen
    requires v.client.nextBefore == w.client.nextBefore && v.client.status == w.client.status
    requires w.client.status == Ready
    ensures Numbered(v) && ShowsLog(v)
  {
  }

  lemma TakeInShows(w: World, items: seq<Message>, c: Client)
    requires Numbered(w) && ShowsLog(w) && w.client.status == Ready && FromLog(items, w.log)
    requires c.messages == Merge(w.client.messages, items)
    requires c.newestSeen == Max(w.client.newestSeen, Newest(items))
    requires c.status == Ready && (c.nextBefore.Some? ==> c.nextBefore.value <= c.newestSeen)
    ensures ShowsLog(w.(client := c))
  {
    MergeShowsLog(w, w.client.messages, items);
  }

  /** Messages of the log are taken in. */
  lemma TakeInKeeps(w: World, items: seq<Message>, c: Client)
    requires Inv(w) && w.client.status == Ready && FromLog(items, w.log)
    requires c.messages == Merge(w.client.messages, items)
    requires c.newestSeen == Max(w.client.newestSeen, Newest(items))
    requires c.status == Ready && (c.nextBefore.Some? ==> c.nextBefore.value <= c.newestSeen)
    requires c.lastMarked == w.client.lastMarked && c.markingUpTo == w.client.markingUpTo
    ensures Inv(w.(client := c))
  {
    TakeInShows(w, items, c);
    InLogBounds(w, items);
    NewerKeeps(w, c);
  }

  /** After messages are taken in, asking for the newest keeps everything. */
  lemma ThenAsk(w: World)
    requires Inv(w) && w.client.status == Ready && w.client.newestSeen > 0
    ensures Inv(Sends(w, Mark(w.client, w.client.newestSeen), w.client.newestSeen))
  {
    AskKeeps(w);
    SameThreadShown(w, Sends(w, Mark(w.client, w.client.newestSeen), w.client.newestSeen));
  }

  lemma ThenAskAgain(w: World)
    requires Inv(w) && w.client.status == Ready
    ensures Inv(Sends(w, AskAgain(w.client), w.client.newestSeen))
  {
    if w.client.newestSeen > w.client.lastMarked {
      ThenAsk(w);
    }
  }

  lemma LoadShows(w: World, items: seq<Message>, next: Option<int>, c: Client)
    requires Inv(w) && Enabled(w, LoadOk(items, next))
    requires c == w.client.(
      messages := Merge([], items), nextBefore := next, status := Ready, newestSeen := Newest(items))
    ensures Inv(w.(client := c))
  {
    MergeShowsLog(w, [], items);
    InLogBounds(w, items);
    NewerKeeps(w, c);
  }

  lemma LoadKeeps(w: World, items: seq<Message>, next: Option<int>)
    requires Inv(w) && Enabled(w, LoadOk(items, next))
    ensures Inv(Step(w, LoadOk(items, next)))
  {
    var c := w.client.(messages := Merge([], items), nextBefore := next, status := Ready, newestSeen := Newest(items));
    LoadShows(w, items, next, c);
    if c.newestSeen > 0 {
      ThenAsk(w.(client := c));
    }
  }

  /** Messages of the log are taken in, and asked for. */
  lemma TakeInThenAsk(w: World, items: seq<Message>, c: Client)
    requires Inv(w) && w.client.status == Ready && FromLog(items, w.log)
    requires c.messages == Merge(w.client.messages, items)
    requires c.newestSeen == Max(w.client.newestSeen, Newest(items))
    requires c.status == Ready && (c.nextBefore.Some? ==> c.nextBefore.value <= c.newestSeen)
    requires c.lastMarked == w.client.lastMarked && c.markingUpTo == w.client.markingUpTo
    ensures Inv(Sends(w, AskAgain(c), c.newestSeen))
  {
    var v := w.(client := c);
    TakeInKeeps(w, items, c);
    ThenAskAgain(v);
    assert Sends(v, AskAgain(c), c.newestSeen) == Sends(w, AskAgain(c), c.newestSeen);
  }

  lemma PollKeeps(w: World, items: seq<Message>)
    requires Inv(w) && Enabled(w, PollPage(items))
    ensures Inv(Step(w, PollPage(items)))
  {
    if Newest(items) > w.client.newestSeen {
      TakeInThenAsk(w, items, w.client.(newestSeen := Newest(items), messages := Merge(w.client.messages, items)));
    }
  }

  lemma OlderKeeps(w: World, items: seq<Message>, next: Option<int>)
    requires Inv(w) && Enabled(w, OlderPage(items, next))
    ensures Inv(Step(w, OlderPage(items, next)))
  {
    InLogBounds(w, items);
    TakeInKeeps(w, items, Older(w.client, items, next));
  }

  lemma SendOkKeeps(w: World, x: Message)
    requires Inv(w) && Enabled(w, SendOk(x))
    ensures Inv(Step(w, SendOk(x)))
  {
    InLogBounds(w, [x]);
    assert x in [x];
    NewestIs([x], x.sequence);
    TakeInKeeps(w, [x], Sent(w.client, x));
  }

  /** The request the marker stands for is still there when another one, or itself, goes a stage on. */
  lemma MarkerStays(w: World, v: World)
    requires MarksAreApart(w) && v.client.markingUpTo == w.client.markingUpTo
    requires v.marks.Keys == w.marks.Keys && forall id :: id in w.marks ==> v.marks[id].upTo == w.marks[id].upTo
    ensures v.client.markingUpTo != 0 ==> exists id :: id in v.marks && v.marks[id].upTo == v.client.markingUpTo
  {
    if w.client.markingUpTo != 0 {
      var k :| k in w.marks && w.marks[k].upTo == w.client.markingUpTo;
      assert v.marks[k].upTo == w.client.markingUpTo;
    }
  }

  lemma ServeKeeps(w: World, id: nat, withBody: bool)
    requires MarksAreApart(w) && id in w.marks && w.marks[id].stage == Asked
    ensures MarksAreApart(ServeMark(w, id, withBody))
  {
    var v := ServeMark(w, id, withBody);
    assert v.marks.Keys == w.marks.Keys;
    MarkerStays(w, v);
    forall k | k in v.marks
      ensures Honest(v, v.marks[k])
    {
      assert Honest(w, w.marks[k]);
    }
  }

  /** The same reader on another device. */
  lemma ReadElsewhereKeeps(w: World, upTo: int)
    requires Inv(w)
    ensures Inv(Step(w, ReadElsewhere(upTo)))
  {
    var v := Step(w, ReadElsewhere(upTo));
    forall id | id in v.marks
      ensures Honest(v, v.marks[id])
    {
      assert Honest(w, w.marks[id]);
    }
  }

  lemma AnswerKeeps(w: World, id: nat)
    requires MarksAreApart(w) && id in w.marks && w.marks[id].stage.Served?
    ensures MarksAreApart(AnswerMark(w, id))
  {
    var v := AnswerMark(w, id);
    assert v.marks.Keys == w.marks.Keys;
    MarkerStays(w, v);
    assert Honest(w, w.marks[id]);
    forall k | k in v.marks
      ensures Honest(v, v.marks[k])
    {
      assert Honest(w, w.marks[k]);
    }
  }

  lemma DropKeeps(w: World, id: nat)
    requires MarksAreApart(w) && id in w.marks
    ensures MarksAreApart(DropMark(w, id))
  {
    var v := DropMark(w, id);
    forall k | k in v.marks
      ensures Honest(v, v.marks[k])
    {
      assert Honest(w, w.marks[k]);
    }
    if v.client.markingUpTo != 0 {
      var k :| k in w.marks && w.marks[k].upTo == w.client.markingUpTo;
      assert k in v.marks;
    }
  }

  lemma RequestStepKeeps(w: World, e: Event)
    requires Inv(w) && Enabled(w, e) && (e.Serve? || e.MarkOk? || e.MarkFails? || e.MarkDone?)
    ensures Inv(Step(w, e))
  {
    match e {
      case Serve(id, withBody) => ServeKeeps(w, id, withBody);
      case MarkOk(id) => AnswerKeeps(w, id);
      case MarkFails(id) => DropKeeps(w, id);
      case MarkDone(id) => DropKeeps(w, id);
    }
    SameThreadShown(w, Step(w, e));
  }

  lemma StepKeepsInv(w: World, e: Event)
    requires Inv(w) && Enabled(w, e)
    ensures Inv(Step(w, e))
  {
    match e
    case Post(x) => PostKeeps(w, x);
    case LoadOk(items, next) => LoadKeeps(w, items, next);
    case LoadFails =>
    case LoadAgain =>
    case PollPage(items) => PollKeeps(w, items);
    case PollSummary => ThenAskAgain(w);
    case OlderPage(items, next) => OlderKeeps(w, items, next);
    case SendOk(x) => SendOkKeeps(w, x);
    case ReadElsewhere(upTo) => ReadElsewhereKeeps(w, upTo);
    case _ => RequestStepKeeps(w, e);
  }

  lemma {:induction false} RunKeepsInv(w: World, es: seq<Event>)
    requires Inv(w) && Legal(w, es)
    ensures Inv(Run(w, es))
    decreases |es|
  {
    if es != [] {
      StepKeepsInv(w, es[0]);
      RunKeepsInv(Step(w, es[0]), es[1..]);
    }
  }

  // ----- What holds of every run

  /** Nothing the thread knows is ever taken back. */
  predicate Onward(w: World, v: World) {
    && w.client.lastMarked <= v.client.lastMarked
    && w.client.newestSeen <= v.client.newestSeen
    && w.read <= v.read
    && forall x :: x in w.client.messages ==> x in v.client.messages
  }

  lemma AskingTouchesTheMarkOnly(c: Client)
    ensures AskAgain(c).0 == c.(markingUpTo := AskAgain(c).0.markingUpTo)
  {
  }

  lemma PollKeepsMessages(w: World, items: seq<Message>)
    requires Inv(w) && Enabled(w, PollPage(items))
    ensures forall x :: x in w.client.messages ==> x in Polled(w.client, items).0.messages
  {
    if Newest(items) > w.client.newestSeen {
      AskingTouchesTheMarkOnly(w.client.(newestSeen := Newest(items), messages := Merge(w.client.messages, items)));
      MergeShowsLog(w, w.client.messages, items);
    }
  }

  /** Before a thread is ready it shows nothing. */
  lemma NoneSeen(w: World)
    requires Inv(w) && w.client.newestSeen == 0
    ensures w.client.messages == []
  {
    if w.client.messages != [] {
      assert w.client.messages[0] in w.client.messages;
      InLogBounds(w, w.client.messages);
    }
  }

  lemma StepKeepsMessages(w: World, e: Event)
    requires Inv(w) && Enabled(w, e)
    ensures forall x :: x in w.client.messages ==> x in Step(w, e).client.messages
  {
    var c := w.client;
    match e
    case LoadOk(_, _) => NoneSeen(w);
    case PollPage(items) => PollKeepsMessages(w, items);
    case OlderPage(items, _) => MergeShowsLog(w, c.messages, items);
    case SendOk(x) => MergeShowsLog(w, c.messages, [x]);
    case _ =>
  }

  lemma OpenedKeepsMarks(c: Client, items: seq<Message>, next: Option<int>)
    ensures Opened(c, items, next).0.lastMarked == c.lastMarked
    ensures Opened(c, items, next).0.newestSeen == Newest(items)
  {
  }

  lemma PolledKeepsMarks(c: Client, items: seq<Message>)
    ensures Polled(c, items).0.lastMarked == c.lastMarked
    ensures Polled(c, items).0.newestSeen == Max(c.newestSeen, Newest(items))
  {
  }

  lemma StepKeepsMarks(w: World, e: Event)
    requires Inv(w) && Enabled(w, e)
    ensures var v := Step(w, e);
            && w.client.lastMarked <= v.client.lastMarked
            && w.client.newestSeen <= v.client.newestSeen
            && w.read <= v.read
  {
    match e
    case LoadOk(items, next) =>
      InLogBounds(w, items);
      OpenedKeepsMarks(w.client, items, next);
    case PollPage(items) => PolledKeepsMarks(w.client, items);
    case _ =>
  }

  lemma StepIsOnward(w: World, e: Event)
    requires Inv(w) && Enabled(w, e)
    ensures Onward(w, Step(w, e))
  {
    StepKeepsMessages(w, e);
    StepKeepsMarks(w, e);
  }

  lemma {:induction false} RunIsOnward(w: World, es: seq<Event>)
    requires Inv(w) && Legal(w, es)
    ensures Onward(w, Run(w, es))
    decreases |es|
  {
    if es != [] {
      StepKeepsInv(w, es[0]);
      StepIsOnward(w, es[0]);
      RunIsOnward(Step(w, es[0]), es[1..]);
    }
  }

  /** After any run and on through any other: the confirmed watermark never decreases and never
      passes what the server has recorded, and no message leaves the thread. */
  lemma WatermarkOnlyGrows(before: seq<Event>, after: seq<Event>)
    requires Legal(START, before) && Legal(Run(START, before), after)
    ensures var w := Run(START, before);
            var v := Run(w, after);
            Onward(w, v) && v.client.lastMarked <= v.read <= v.last
  {
    StartIsGood();
    RunKeepsInv(START, before);
    RunKeepsInv(Run(START, before), after);
    RunIsOnward(Run(START, before), after);
  }

  /** No two mark-read requests under way carry the same sequence. */
  lemma NoMarkTwice(es: seq<Event>, i: nat, j: nat)
    requires Legal(START, es)
    requires i in Run(START, es).marks && j in Run(START, es).marks && i != j
    ensures Run(START, es).marks[i].upTo != Run(START, es).marks[j].upTo
  {
    StartIsGood();
    RunKeepsInv(START, es);
  }

  /** The thread is in order, without repetition, all from the log, and `newestSeen` is its newest. */
  lemma ThreadShowsLog(es: seq<Event>)
    requires Legal(START, es)
    ensures var w := Run(START, es);
            && Ascending(w.client.messages) && FromLog(w.client.messages, w.log)
            && w.client.newestSeen == Newest(w.client.messages)
  {
    StartIsGood();
    RunKeepsInv(START, es);
  }

  /** The messages an event brings. */
  function Brought(e: Event): seq<Message> {
    match e
    case LoadOk(items, _) => items
    case PollPage(items) => items
    case OlderPage(items, _) => items
    case SendOk(x) => [x]
    case _ => []
  }

  /** `d` shows what `c` shows and `items`, nothing else, and remembers the newest of both. */
  ghost predicate TookIn(c: Client, d: Client, items: seq<Message>) {
    && (forall x :: x in d.messages <==> x in c.messages || x in items)
    && d.newestSeen == Max(c.newestSeen, Newest(items))
    && d.lastMarked == c.lastMarked
  }

  lemma LoadShown(w: World, items: seq<Message>, next: Option<int>)
    requires Inv(w) && w.client.status != Ready && FromLog(items, w.log)
    ensures var d := Opened(w.client, items, next).0;
            TookIn(w.client, d, items) && d.nextBefore == next && d.status == Ready
  {
    NoneSeen(w);
    InLogBounds(w, items);
    MergeShowsLog(w, [], items);
  }

  lemma PollShown(w: World, items: seq<Message>)
    requires Inv(w) && FromLog(items, w.log)
    ensures var (d, sent) := Polled(w.client, items);
            if Newest(items) <= w.client.newestSeen then d == w.client && !sent
            else TookIn(w.client, d, items) && d.nextBefore == w.client.nextBefore && d.status == w.client.status
  {
    if Newest(items) > w.client.newestSeen {
      var c := w.client.(newestSeen := Newest(items), messages := Merge(w.client.messages, items));
      AskingTouchesTheMarkOnly(c);
      MergeShowsLog(w, w.client.messages, items);
    }
  }

  lemma OlderShown(w: World, items: seq<Message>, next: Option<int>)
    requires Inv(w) && Enabled(w, OlderPage(items, next))
    ensures var d := Older(w.client, items, next);
            TookIn(w.client, d, items) && d.nextBefore == next && d.status == Ready
  {
    InLogBounds(w, items);
    MergeShowsLog(w, w.client.messages, items);
  }

  lemma SentShown(w: World, x: Message)
    requires Inv(w) && FromLog([x], w.log)
    ensures var d := Sent(w.client, x);
            TookIn(w.client, d, [x]) && d.nextBefore == w.client.nextBefore && d.status == w.client.status
  {
    InLogBounds(w, [x]);
    assert x in [x];
    NewestIs([x], x.sequence);
    MergeShowsLog(w, w.client.messages, [x]);
  }

  /** After any run, what a page or a sent message brings is shown, together with all that was shown
      before and nothing else; a poll's page with nothing newer changes nothing. The mark for older
      messages is the one that came with the page. */
  lemma PagesAreShown(es: seq<Event>, e: Event)
    requires Legal(START, es) && Enabled(Run(START, es), e)
    requires e.LoadOk? || e.PollPage? || e.OlderPage? || e.SendOk?
    ensures var w := Run(START, es);
            var v := Step(w, e);
            if e.PollPage? && Newest(e.items) <= w.client.newestSeen then v == w
            else
              && TookIn(w.client, v.client, Brought(e)) && v.client.status == Ready
              && v.client.nextBefore == (if e.LoadOk? || e.OlderPage? then e.next else w.client.nextBefore)
  {
    StartIsGood();
    RunKeepsInv(START, es);
    var w := Run(START, es);
    match e
    case LoadOk(items, next) => LoadShown(w, items, next);
    case PollPage(items) => PollShown(w, items);
    case OlderPage(items, next) => OlderShown(w, items, next);
    case SendOk(x) => SentShown(w, x);
  }

  /** `(d, sent)` sends only a request for its newest message, beyond what is confirmed. */
  predicate News(step: (Client, bool)) {
    step.1 ==> step.0.markingUpTo == step.0.newestSeen > step.0.lastMarked
  }

  lemma StepsSendNews(c: Client, items: seq<Message>, next: Option<int>)
    ensures News(AskAgain(c)) && News(Opened(c, items, next)) && News(Polled(c, items))
    ensures Opened(c, items, next).0.newestSeen == Newest(items)
    ensures Polled(c, items).1 ==> Polled(c, items).0.newestSeen == Newest(items)
    ensures AskAgain(c).0.newestSeen == c.newestSeen
  {
  }

  lemma NoNewMark(w: World, e: Event)
    requires Enabled(w, e) && !e.LoadOk? && !e.PollPage? && !e.PollSummary?
    ensures Step(w, e).marks.Keys <= w.marks.Keys
  {
  }

  lemma SendsNews(w: World, e: Event, id: nat)
    requires Enabled(w, e) && MarksAreApart(Step(w, e)) && id in Step(w, e).marks && id !in w.marks
    ensures var v := Step(w, e);
            && v.marks[id] == Request(v.client.newestSeen, Asked)
            && v.marks[id].upTo > v.client.lastMarked && v.client.markingUpTo == v.marks[id].upTo
            && (forall i :: i in w.marks ==> w.marks[i].upTo < v.marks[id].upTo)
  {
    var v := Step(w, e);
    if !e.LoadOk? && !e.PollPage? && !e.PollSummary? {
      NoNewMark(w, e);
    }
    StepsSendNews(w.client, Brought(e), if e.LoadOk? then e.next else None);
    forall i | i in w.marks
      ensures w.marks[i].upTo < v.marks[id].upTo
    {
      assert v.marks[i] == w.marks[i] && v.marks[i].upTo != v.marks[id].upTo;
    }
  }

  /** A request is only ever sent for the newest message, beyond what is confirmed and beyond every
      request under way. */
  lemma MarksAreNews(es: seq<Event>, e: Event, id: nat)
    requires Legal(START, es) && Enabled(Run(START, es), e)
    requires id in Step(Run(START, es), e).marks && id !in Run(START, es).marks
    ensures var w := Run(START, es);
            var v := Step(w, e);
            && v.marks[id] == Request(v.client.newestSeen, Asked)
            && v.marks[id].upTo > v.client.lastMarked && v.client.markingUpTo == v.marks[id].upTo
            && (forall i :: i in w.marks ==> w.marks[i].upTo < v.marks[id].upTo)
  {
    StartIsGood();
    RunKeepsInv(START, es);
    StepKeepsInv(Run(START, es), e);
    SendsNews(Run(START, es), e, id);
  }

  /** Where a successful poll leaves off: everything seen is confirmed, or being asked for. */
  predicate AskedFor(w: World) {
    w.client.newestSeen <= w.client.lastMarked || exists id :: id in w.marks && w.marks[id].upTo == w.client.newestSeen
  }

  lemma AskedAfter(w: World)
    requires MarksAreApart(w)
    ensures var v := Sends(w, AskAgain(w.client), w.client.newestSeen);
            && AskedFor(v)
            && (w.marks == map[] && w.client.newestSeen > w.client.lastMarked ==>
                  v.marks == map[w.nextId := Request(w.client.newestSeen, Asked)])
  {
    var upTo := w.client.newestSeen;
    var v := Sends(w, AskAgain(w.client), upTo);
    if upTo > w.client.lastMarked {
      if AskAgain(w.client).1 {
        assert v.marks[w.nextId].upTo == upTo;
      } else {
        var id :| id in w.marks && w.marks[id].upTo == w.client.markingUpTo;
        assert v.marks[id].upTo == upTo;
      }
    }
  }

  lemma AskedAfterLoad(w: World, items: seq<Message>, next: Option<int>)
    requires Inv(w) && Enabled(w, LoadOk(items, next))
    ensures var v := Step(w, LoadOk(items, next));
            && AskedFor(v)
            && (w.marks == map[] && v.client.newestSeen > w.client.lastMarked ==>
                  v.marks == map[w.nextId := Request(v.client.newestSeen, Asked)])
  {
    var v := Step(w, LoadOk(items, next));
    if v.client.newestSeen > w.client.lastMarked {
      assert v.marks[w.nextId].upTo == v.client.newestSeen;
    }
  }

  /** A load or a poll that ends well, by bringing messages or by reading the summary, leaves nothing seen
      unasked for; with nothing under way and something unconfirmed it sends a request. */
  lemma PollAsksAgain(es: seq<Event>, e: Event)
    requires Legal(START, es) && Enabled(Run(START, es), e)
    requires e.PollSummary? || e.LoadOk? || (e.PollPage? && Newest(e.items) > Run(START, es).client.newestSeen)
    ensures var w := Run(START, es);
            var v := Step(w, e);
            && AskedFor(v)
            && (w.marks == map[] && v.client.newestSeen > w.client.lastMarked ==>
                  v.marks == map[w.nextId := Request(v.client.newestSeen, Asked)])
  {
    StartIsGood();
    RunKeepsInv(START, es);
    var w := Run(START, es);
    if e.PollSummary? {
      AskedAfter(w);
    } else if e.LoadOk? {
      AskedAfterLoad(w, e.items, e.next);
    } else {
      var c := w.client.(newestSeen := Newest(e.items), messages := Merge(w.client.messages, e.items));
      TakeInKeeps(w, e.items, c);
      AskedAfter(w.(client := c));
    }
  }

  lemma ConfirmIsGreater(c: Client, upTo: int, reply: Option<int>)
    ensures var said := if reply.Some? then reply.value else upTo;
            Confirm(c, upTo, reply) == c.(lastMarked := if said > c.lastMarked then said else c.lastMarked)
  {
  }

  /** A request whose answer arrives is confirmed, in whatever order answers arrive: the watermark
      becomes the answer's, or what was asked when the answer says nothing, unless it was beyond that
      already. */
  lemma AnswerConfirms(es: seq<Event>, id: nat)
    requires Legal(START, es) && Enabled(Run(START, es), MarkOk(id))
    ensures var w := Run(START, es);
            var m := w.marks[id];
            var said := if m.stage.reply.Some? then m.stage.reply.value else m.upTo;
            && m.upTo <= said
            && Step(w, MarkOk(id)).client
               == w.client.(lastMarked := if said > w.client.lastMarked then said else w.client.lastMarked)
  {
    StartIsGood();
    RunKeepsInv(START, es);
    var w := Run(START, es);
    assert Honest(w, w.marks[id]);
    ConfirmIsGreater(w.client, w.marks[id].upTo, w.marks[id].stage.reply);
  }

  /** A request that fails confirms nothing, and takes down its own marker only. */
  lemma FailureConfirmsNothing(w: World, id: nat)
    requires Inv(w) && Enabled(w, MarkFails(id))
    ensures var v := Step(w, MarkFails(id));
            && id !in v.marks && v.client.lastMarked == w.client.lastMarked && v.client.messages == w.client.messages
            && v.client.markingUpTo == (if w.client.markingUpTo == w.marks[id].upTo then 0 else w.client.markingUpTo)
  {
  }
}
