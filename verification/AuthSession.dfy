/** Signing a browser session on: one shared refresh against a server that rotates its refresh
    tokens, and the one retry every request gets after a 401.

    `World` is the browser, the server and whatever is under way between them. One `Event` is one
    uninterrupted piece of work; a run is any legal sequence of events, so the callers, the
    responses and the server interleave in every order. */
module AuthSession {
  import opened Options

  // ----- Requests

  datatype Request = Request(verb: string, path: string, body: Option<string>, extra: map<string, string>)

  datatype Message = Message(verb: string, path: string, body: Option<string>, headers: map<string, string>)

  const CONTENT_TYPE := "Content-Type"
  const AUTHORIZATION := "Authorization"
  const CSRF := "X-CSRF-Token"

  /** A token that is there and not empty. */
  predicate Given(token: Option<string>) {
    token.Some? && token.value != ""
  }

  /** `csrf` is what a client that sends cookies has for the double submit; None for any other. */
  function HeadersFor(extra: map<string, string>, hasBody: bool, token: Option<string>, csrf: Option<string>)
    : map<string, string>
  {
    var typed := if hasBody then extra[CONTENT_TYPE := "application/json"] else extra;
    var signed := if Given(token) then typed[AUTHORIZATION := "Bearer " + token.value] else typed;
    if Given(csrf) then signed[CSRF := csrf.value] else signed
  }

  /** The message a request becomes under the access token of the moment; no cookie goes with it. */
  function Compose(r: Request, token: Option<string>): Message {
    Message(r.verb, r.path, r.body, HeadersFor(r.extra, r.body.Some?, token, None))
  }

  method BuildHeaders(
    extra: map<string, string>, hasBody: bool, token: Option<string>, withCredentials: bool, csrfToken: Option<string>)
    returns (headers: map<string, string>)
    ensures headers == HeadersFor(extra, hasBody, token, if withCredentials then csrfToken else None)
  {
    headers := extra;
    if hasBody {
      headers := headers[CONTENT_TYPE := "application/json"];
    }
    if Given(token) {
      headers := headers[AUTHORIZATION := "Bearer " + token.value];
    }
    if withCredentials {
      if Given(csrfToken) {
        headers := headers[CSRF := csrfToken.value];
      }
    }
  }

  /** Which headers there are, and what each says. */
  predicate HeadersAre(
    headers: map<string, string>, extra: map<string, string>, hasBody: bool,
    token: Option<string>, csrf: Option<string>)
  {
    var signed := token.Some? && token.value != "";
    var doubled := csrf.Some? && csrf.value != "";
    && headers.Keys == extra.Keys + (if hasBody then {"Content-Type"} else {})
                       + (if signed then {"Authorization"} else {}) + (if doubled then {"X-CSRF-Token"} else {})
    && (hasBody ==> headers["Content-Type"] == "application/json")
    && (signed ==> headers["Authorization"] == "Bearer " + token.value)
    && (doubled ==> headers["X-CSRF-Token"] == csrf.value)
    && (!hasBody && "Content-Type" in extra ==> headers["Content-Type"] == extra["Content-Type"])
    && (!signed && "Authorization" in extra ==> headers["Authorization"] == extra["Authorization"])
    && (!doubled && "X-CSRF-Token" in extra ==> headers["X-CSRF-Token"] == extra["X-CSRF-Token"])
    && forall k :: k in extra.Keys - {"Content-Type", "Authorization", "X-CSRF-Token"} ==> headers[k] == extra[k]
  }

  lemma HeadersSpeltOut(extra: map<string, string>, hasBody: bool, token: Option<string>, csrf: Option<string>)
    ensures HeadersAre(HeadersFor(extra, hasBody, token, csrf), extra, hasBody, token, csrf)
  {
    assert CONTENT_TYPE != AUTHORIZATION && CONTENT_TYPE != CSRF && AUTHORIZATION != CSRF by {
      assert CONTENT_TYPE[0] == 'C' && AUTHORIZATION[0] == 'A' && CSRF[0] == 'X';
    }
  }

  /** `m` asks what `r` asks, with `r`'s headers and the bearer token, and with no CSRF token. */
  predicate Carries(m: Message, r: Request, token: Option<string>) {
    m.verb == r.verb && m.path == r.path && m.body == r.body
    && HeadersAre(m.headers, r.extra, r.body.Some?, token, None)
  }

  lemma ComposeCarries(r: Request, token: Option<string>)
    ensures Carries(Compose(r, token), r, token)
  {
    HeadersSpeltOut(r.extra, r.body.Some?, token, None);
  }

  /** The same call to the server, whatever access token it carries. */
  predicate SameCall(m: Message, n: Message) {
    m.verb == n.verb && m.path == n.path && m.body == n.body
    && m.headers - {AUTHORIZATION} == n.headers - {AUTHORIZATION}
  }

  lemma ReplayIsTheSameCall(r: Request, a: Option<string>, b: Option<string>)
    ensures SameCall(Compose(r, a), Compose(r, b))
  {
  }

  // ----- The browser's side of a refresh

  datatype Status = Loading | Authenticated | Unauthenticated

  /** `inFlight` names the refresh attempt whose promise callers share; `attempts` counts them. */
  datatype Client = Client(
    inFlight: Option<nat>,
    attempts: nat,
    access: Option<string>,
    csrf: Option<string>,
    user: Option<string>,
    status: Status)

  const SIGNED_OUT := Client(None, 0, None, None, None, Loading)

  /** How an attempt ends: with tokens, with a 2xx that carries none, or in the catch clause. */
  datatype Outcome = Renewed(access: string, csrf: Option<string>) | Blank | Failed

  /** The attempt a caller of `refreshSession` gets, and whether it had to be started. */
  function Begin(c: Client): (Client, nat, bool) {
    match c.inFlight
    case Some(a) => (c, a, false)
    case None => (c.(inFlight := Some(c.attempts), attempts := c.attempts + 1), c.attempts, true)
  }

  function Finish(c: Client, outcome: Outcome): (Client, bool) {
    match outcome
    case Renewed(t, csrf) =>
      (c.(inFlight := None, access := Some(t), csrf := if Given(csrf) then csrf else c.csrf), true)
    case Blank => (c.(inFlight := None), false)
    case Failed =>
      (c.(inFlight := None, access := None, csrf := None, user := None, status := Unauthenticated), false)
  }

  class AuthProvider {
    var inFlightRefresh: Option<nat>
    var attempts: nat
    var accessToken: Option<string>
    var csrfToken: Option<string>
    var user: Option<string>
    var status: Status

    function View(): Client
      reads this
    {
      Client(inFlightRefresh, attempts, accessToken, csrfToken, user, status)
    }

    constructor ()
      ensures View() == SIGNED_OUT
    {
      inFlightRefresh := None;
      attempts := 0;
      accessToken, csrfToken, user := None, None, None;
      status := Loading;
    }

    /** Up to the first await: an attempt under way is shared, otherwise one is sent. */
    method RefreshSession() returns (attempt: nat, started: bool)
      modifies this
      ensures (View(), attempt, started) == Begin(old(View()))
    {
      if inFlightRefresh.Some? {
        return inFlightRefresh.value, false;
      }
      attempt := attempts;
      started := true;
      attempts := attempts + 1;
      inFlightRefresh := Some(attempt);
    }

    /** From the await to the `finally`. */
    method Settle(outcome: Outcome) returns (refreshed: bool)
      modifies this
      ensures (View(), refreshed) == Finish(old(View()), outcome)
    {
      match outcome {
        case Renewed(t, csrf) =>
          accessToken := Some(t);
          if Given(csrf) {
            csrfToken := csrf;
          }
          refreshed := true;
        case Blank =>
          refreshed := false;
        case Failed =>
          accessToken, csrfToken := None, None;
          user := None;
          status := Unauthenticated;
          refreshed := false;
      }
      inFlightRefresh := None;
    }
  }

  // ----- Browser, server and what is between them

  /** What the server made of the presented token; a granted answer carries the next one. */
  datatype Answer = Pending | Granted(next: nat) | Denied

  datatype Flight = Flight(token: nat, answer: Answer)

  datatype Phase = First | Waiting | Second | Finished

  /** One call of `request`: what was asked, every message it has sent, where it stands, and the
      refresh it waited for if its first answer was a 401. */
  datatype Logical = Logical(request: Request, sent: seq<Message>, phase: Phase, waited: Option<nat>)

  /** Refresh tokens are numbered in the order the server issues them: `live` is the valid one,
      `jar` the one in the browser's cookie. `seen` lists the tokens the server was shown, `lost`
      records that a new token never reached the browser, and `strays` holds the tokens of refreshes
      the browser has given up and the server has not been shown yet. */
  datatype World = World(
    client: Client,
    jar: nat,
    live: nat,
    revoked: bool,
    flights: map<nat, Flight>,
    strays: map<nat, nat>,
    settled: map<nat, bool>,
    calls: map<nat, Logical>,
    seen: seq<nat>,
    lost: bool)

  datatype Body = Tokens(access: string, csrf: Option<string>) | Empty | Unreadable

  datatype Reply = Fine | Unauthorized | OtherError

  datatype Event =
    | Call(id: nat, request: Request)
    | Answered(id: nat, reply: Reply)
    | Resume(id: nat)
    | AskRefresh
    | ServerLooks(attempt: nat, recent: bool)
    | ServerTurnsAway(attempt: nat)
    | Deliver(attempt: nat, body: Body)
    | Lose(attempt: nat)
    | StrayArrives(attempt: nat, recent: bool)

  const START := World(SIGNED_OUT, 0, 0, false, map[], map[], map[], map[], [], false)

  /** A call whose refresh has settled. */
  predicate MayGoOn(w: World, l: Logical) {
    l.phase.Waiting? && l.waited.Some? && l.waited.value in w.settled
  }

  predicate Enabled(w: World, e: Event) {
    match e
    case Call(id, _) => id !in w.calls
    case Answered(id, _) => id in w.calls && (w.calls[id].phase.First? || w.calls[id].phase.Second?)
    case Resume(id) => id in w.calls && MayGoOn(w, w.calls[id])
    case AskRefresh => true
    case ServerLooks(a, _) => a in w.flights && w.flights[a].answer == Pending
    case ServerTurnsAway(a) => a in w.flights && w.flights[a].answer == Pending
    case Deliver(a, _) => a in w.flights && w.flights[a].answer != Pending
    case Lose(a) => a in w.flights
    case StrayArrives(a, _) => a in w.strays
  }

  /** `refreshSession` up to its await: the cookie goes out with a new attempt, and only with it. */
  function Refresh(w: World): (World, nat) {
    var (client, attempt, started) := Begin(w.client);
    var flights := if started then w.flights[attempt := Flight(w.jar, Pending)] else w.flights;
    (w.(client := client, flights := flights), attempt)
  }

  /** An attempt's promise settles and its callers may go on. */
  function SettleAttempt(w: World, attempt: nat, outcome: Outcome): World {
    var (client, refreshed) := Finish(w.client, outcome);
    w.(client := client, flights := w.flights - {attempt}, settled := w.settled[attempt := refreshed])
  }

  /** The server is shown a token: the live one is rotated, any other is a replay, which ends the
      whole chain unless the rotation was a moment ago. */
  function Show(w: World, token: nat, recent: bool): (World, bool) {
    var v := w.(seen := w.seen + [token]);
    if token == w.live && !w.revoked then (v.(live := w.live + 1), true)
    else (v.(revoked := w.revoked || !recent), false)
  }

  function Look(w: World, a: nat, recent: bool): World
    requires a in w.flights
  {
    var f := w.flights[a];
    var (v, granted) := Show(w, f.token, recent);
    v.(flights := w.flights[a := f.(answer := if granted then Granted(v.live) else Denied)])
  }

  /** A refresh that was given up reaches the server after all; its answer reaches nobody. */
  function LookAtStray(w: World, a: nat, recent: bool): World
    requires a in w.strays
  {
    var (v, granted) := Show(w, w.strays[a], recent);
    v.(strays := w.strays - {a}, lost := w.lost || granted)
  }

  /** The server refuses before it looks at the token. */
  function TurnAway(w: World, a: nat): World
    requires a in w.flights
  {
    w.(flights := w.flights[a := w.flights[a].(answer := Denied)])
  }

  function Arrive(w: World, a: nat, body: Body): World
    requires a in w.flights
  {
    match w.flights[a].answer
    case Granted(next) =>
      var outcome := match body case Tokens(t, csrf) => Renewed(t, csrf) case Empty => Blank case Unreadable => Failed;
      SettleAttempt(w.(jar := next), a, outcome)
    case _ => SettleAttempt(w, a, Failed)
  }

  /** The browser gives an attempt up. An answer under way is lost, a request under way may still
      arrive. */
  function Vanish(w: World, a: nat): World
    requires a in w.flights
  {
    var f := w.flights[a];
    var strays := if f.answer == Pending then w.strays[a := f.token] else w.strays;
    SettleAttempt(w.(lost := w.lost || f.answer.Granted?, strays := strays), a, Failed)
  }

  /** A first 401 waits for a refresh; anything else ends the call. */
  function Receive(w: World, id: nat, reply: Reply): World
    requires id in w.calls
  {
    var l := w.calls[id];
    if reply == Unauthorized && l.phase == First then
      var (v, attempt) := Refresh(w);
      v.(calls := v.calls[id := l.(phase := Waiting, waited := Some(attempt))])
    else
      w.(calls := w.calls[id := l.(phase := Finished)])
  }

  /** The wait is over: the request goes out once more, or the first error stands. */
  function Continue(w: World, id: nat): World
    requires id in w.calls && MayGoOn(w, w.calls[id])
  {
    var l := w.calls[id];
    var next := if w.settled[l.waited.value]
                then l.(sent := l.sent + [Compose(l.request, w.client.access)], phase := Second)
                else l.(phase := Finished);
    w.(calls := w.calls[id := next])
  }

  function Step(w: World, e: Event): World
    requires Enabled(w, e)
  {
    match e
    case Call(id, r) => w.(calls := w.calls[id := Logical(r, [Compose(r, w.client.access)], First, None)])
    case Answered(id, reply) => Receive(w, id, reply)
    case Resume(id) => Continue(w, id)
    case AskRefresh => Refresh(w).0
    case ServerLooks(a, recent) => Look(w, a, recent)
    case ServerTurnsAway(a) => TurnAway(w, a)
    case Deliver(a, body) => Arrive(w, a, body)
    case Lose(a) => Vanish(w, a)
    case StrayArrives(a, recent) => LookAtStray(w, a, recent)
  }

  predicate Legal(w: World, es: seq<Event>)
    decreases |es|
  {
    es == [] || (Enabled(w, es[0]) && Legal(Step(w, es[0]), es[1..]))
  }

  function Run(w: World, es: seq<Event>): World
    requires Legal(w, es)
    decreases |es|
  {
    if es == [] then w else Run(Step(w, es[0]), es[1..])
  }

  // ----- What every step keeps

  /** The attempt the client shares is the attempt in flight. */
  ghost predicate OneFlight(w: World) {
    && w.flights.Keys == (match w.client.inFlight case None => {} case Some(a) => {a})
    && (forall a :: a in w.flights || a in w.settled ==> a < w.client.attempts)
    && w.flights.Keys !! w.settled.Keys
  }

  function UpTo(n: nat): seq<nat> {
    seq(n, i => i)
  }

  /** The cookie is the live token, or the one the answer under way replaces; once a new token is lost
      it stays one behind. Whatever else is under way carries the cookie or an older one. */
  ghost predicate CookieAndLive(w: World) {
    && (forall a :: a in w.flights ==> w.flights[a].token == w.jar)
    && (forall a :: a in w.strays ==> w.strays[a] <= w.jar)
    && (if w.lost then
          w.jar + 1 == w.live && forall a :: a in w.flights ==> !w.flights[a].answer.Granted?
        else
          && (forall a :: a in w.flights && w.flights[a].answer.Granted? ==>
                w.flights[a].answer.next == w.live == w.jar + 1)
          && ((forall a :: a in w.flights ==> !w.flights[a].answer.Granted?) ==> w.jar == w.live))
  }

  ghost predicate MessageOf(r: Request, m: Message) {
    exists t :: m == Compose(r, t)
  }

  predicate RefreshWorked(w: World, l: Logical) {
    l.waited.Some? && l.waited.value in w.settled && w.settled[l.waited.value]
  }

  predicate Resumed(w: World, l: Logical) {
    l.waited.Some? ==> l.waited.value in w.settled
  }

  /** A call has sent its request once, or twice with a successful refresh between. */
  ghost predicate CallKeepsRule(w: World, l: Logical) {
    && 1 <= |l.sent| <= 2
    && (forall i :: 0 <= i < |l.sent| ==> MessageOf(l.request, l.sent[i]))
    && (match l.phase
        case First => |l.sent| == 1 && l.waited == None
        case Waiting => |l.sent| == 1 && l.waited.Some? && (l.waited.value in w.flights || l.waited.value in w.settled)
        case Second => |l.sent| == 2 && RefreshWorked(w, l)
        case Finished => Resumed(w, l) && (|l.sent| == 2 <==> RefreshWorked(w, l)))
  }

  /** The part of the invariant the refresh itself is about. */
  ghost predicate CookieRule(w: World) {
    OneFlight(w) && CookieAndLive(w)
  }

  ghost predicate CallsKeepRule(w: World) {
    forall id :: id in w.calls ==> CallKeepsRule(w, w.calls[id])
  }

  ghost predicate Inv(w: World) {
    CookieRule(w) && CallsKeepRule(w)
  }

  lemma StartIsGood()
    ensures Inv(START)
  {
  }

  lemma RefreshKeepsCookie(w: World)
    requires CookieRule(w)
    ensures CookieRule(Refresh(w).0)
  {
  }

  lemma LookKeepsCookie(w: World, a: nat, recent: bool)
    requires CookieRule(w) && a in w.flights && w.flights[a].answer == Pending
    ensures CookieRule(Look(w, a, recent))
  {
    assert Look(w, a, recent).flights.Keys == w.flights.Keys == {a};
  }

  lemma TurnAwayKeepsCookie(w: World, a: nat)
    requires CookieRule(w) && a in w.flights && w.flights[a].answer == Pending
    ensures CookieRule(TurnAway(w, a))
  {
    assert TurnAway(w, a).flights.Keys == w.flights.Keys == {a};
  }

  lemma ArriveKeepsCookie(w: World, a: nat, body: Body)
    requires CookieRule(w) && a in w.flights && w.flights[a].answer != Pending
    ensures CookieRule(Arrive(w, a, body))
  {
    assert w.flights.Keys == {a};
    assert Arrive(w, a, body).flights.Keys == {};
  }

  lemma VanishKeepsCookie(w: World, a: nat)
    requires CookieRule(w) && a in w.flights
    ensures CookieRule(Vanish(w, a))
  {
    assert w.flights.Keys == {a};
    assert Vanish(w, a).flights.Keys == {};
  }

  lemma StrayKeepsCookie(w: World, a: nat, recent: bool)
    requires CookieRule(w) && a in w.strays
    ensures CookieRule(LookAtStray(w, a, recent))
  {
  }

  /** What a call relies on is never taken back: attempts stay known, outcomes stay as they were. */
  lemma CallsCarryOver(w: World, v: World)
    requires CallsKeepRule(w) && v.calls == w.calls
    requires forall a :: a in w.flights ==> a in v.flights || a in v.settled
    requires forall a :: a in w.settled ==> a in v.settled && v.settled[a] == w.settled[a]
    ensures CallsKeepRule(v)
  {
    forall id | id in v.calls
      ensures CallKeepsRule(v, v.calls[id])
    {
      assert CallKeepsRule(w, w.calls[id]);
    }
  }

  lemma RefreshKeepsCalls(w: World)
    requires CookieRule(w) && CallsKeepRule(w)
    ensures CallsKeepRule(Refresh(w).0)
    ensures Refresh(w).1 in Refresh(w).0.flights
  {
    CallsCarryOver(w, Refresh(w).0);
  }

  /** Putting a well-behaved call in place keeps everything. */
  lemma Replaced(w: World, id: nat, l: Logical)
    requires CookieRule(w) && CallsKeepRule(w) && CallKeepsRule(w, l)
    ensures Inv(w.(calls := w.calls[id := l]))
  {
    var v := w.(calls := w.calls[id := l]);
    forall i | i in v.calls
      ensures CallKeepsRule(v, v.calls[i])
    {
      assert CallKeepsRule(w, v.calls[i]);
    }
  }

  lemma ReceiveKeeps(w: World, id: nat, reply: Reply)
    requires Inv(w) && id in w.calls && (w.calls[id].phase.First? || w.calls[id].phase.Second?)
    ensures Inv(Receive(w, id, reply))
  {
    assert CallKeepsRule(w, w.calls[id]);
    if reply == Unauthorized && w.calls[id].phase == First {
      RefreshKeepsCookie(w);
      RefreshKeepsCalls(w);
      Replaced(Refresh(w).0, id, w.calls[id].(phase := Waiting, waited := Some(Refresh(w).1)));
    } else {
      Replaced(w, id, w.calls[id].(phase := Finished));
    }
  }

  lemma ContinueKeeps(w: World, id: nat)
    requires Inv(w) && Enabled(w, Resume(id))
    ensures Inv(Continue(w, id))
  {
    var l := w.calls[id];
    assert CallKeepsRule(w, l);
    if w.settled[l.waited.value] {
      var again := l.(sent := l.sent + [Compose(l.request, w.client.access)], phase := Second);
      assert MessageOf(l.request, again.sent[0]) && MessageOf(l.request, again.sent[1]);
      Replaced(w, id, again);
    } else {
      Replaced(w, id, l.(phase := Finished));
    }
  }

  lemma LookKeeps(w: World, a: nat, recent: bool)
    requires Inv(w) && Enabled(w, ServerLooks(a, recent))
    ensures Inv(Look(w, a, recent))
  {
    LookKeepsCookie(w, a, recent);
    CallsCarryOver(w, Look(w, a, recent));
  }

  lemma TurnAwayKeeps(w: World, a: nat)
    requires Inv(w) && Enabled(w, ServerTurnsAway(a))
    ensures Inv(TurnAway(w, a))
  {
    TurnAwayKeepsCookie(w, a);
    CallsCarryOver(w, TurnAway(w, a));
  }

  lemma ArriveKeeps(w: World, a: nat, body: Body)
    requires Inv(w) && Enabled(w, Deliver(a, body))
    ensures Inv(Arrive(w, a, body))
  {
    ArriveKeepsCookie(w, a, body);
    CallsCarryOver(w, Arrive(w, a, body));
  }

  lemma VanishKeeps(w: World, a: nat)
    requires Inv(w) && Enabled(w, Lose(a))
    ensures Inv(Vanish(w, a))
  {
    VanishKeepsCookie(w, a);
    CallsCarryOver(w, Vanish(w, a));
  }

  lemma StrayKeeps(w: World, a: nat, recent: bool)
    requires Inv(w) && Enabled(w, StrayArrives(a, recent))
    ensures Inv(LookAtStray(w, a, recent))
  {
    StrayKeepsCookie(w, a, recent);
    CallsCarryOver(w, LookAtStray(w, a, recent));
  }

  lemma StepKeepsInv(w: World, e: Event)
    requires Inv(w) && Enabled(w, e)
    ensures Inv(Step(w, e))
  {
    match e
    case Call(id, r) =>
      assert MessageOf(r, Compose(r, w.client.access));
      Replaced(w, id, Logical(r, [Compose(r, w.client.access)], First, None));
    case Answered(id, reply) =>
      ReceiveKeeps(w, id, reply);
    case Resume(id) =>
      ContinueKeeps(w, id);
    case AskRefresh =>
      RefreshKeepsCookie(w);
      RefreshKeepsCalls(w);
    case ServerLooks(a, recent) => LookKeeps(w, a, recent);
    case ServerTurnsAway(a) => TurnAwayKeeps(w, a);
    case Deliver(a, body) => ArriveKeeps(w, a, body);
    case Lose(a) => VanishKeeps(w, a);
    case StrayArrives(a, recent) => StrayKeeps(w, a, recent);
  }

  lemma {:induction false} RunKeepsInv(w: World, es: seq<Event>)
    requires Inv(w) && Legal(w, es)
    ensures Inv(Run(w, es))
    decreases |es|
  {
    if es != [] {
      StepKeepsInv(w, es[0]);
      RunKeepsInv(Step(w, es[0]), es[1..]);
    }
  }

  // ----- What holds of every run

  predicate Distinct(s: seq<nat>) {
    forall i, j :: 0 <= i < j < |s| ==> s[i] != s[j]
  }

  /** At most one refresh is in flight, however many callers there are. */
  lemma SingleFlight(es: seq<Event>)
    requires Legal(START, es)
    ensures |Run(START, es).flights| <= 1
  {
    StartIsGood();
    RunKeepsInv(START, es);
    var w := Run(START, es);
    assert |w.flights| == |w.flights.Keys|;
  }

  // Replays

  /** A step that shows the server a token it has rotated: the cookie after a new token was lost, or
      a refresh that was given up and arrives after another rotation. */
  predicate Replays(w: World, e: Event)
    requires Enabled(w, e)
  {
    (e.ServerLooks? && w.lost) || (e.StrayArrives? && w.strays[e.attempt] < w.live)
  }

  predicate Replayed(w: World, es: seq<Event>)
    requires Legal(w, es)
    decreases |es|
  {
    es != [] && (Replays(w, es[0]) || Replayed(Step(w, es[0]), es[1..]))
  }

  /** What the server has seen, `replayed` saying whether some step has replayed a token. */
  ghost predicate SeenRule(w: World, replayed: bool) {
    && (forall t :: 0 <= t < w.live ==> t in w.seen)
    && (if replayed then !Distinct(w.seen) else w.seen == UpTo(w.live) && !w.revoked)
  }

  lemma ShownAgain(seen: seq<nat>, token: nat)
    requires token in seen
    ensures !Distinct(seen + [token])
  {
    var i :| 0 <= i < |seen| && seen[i] == token;
    assert (seen + [token])[i] == (seen + [token])[|seen|];
  }

  lemma StillTwice(seen: seq<nat>, token: nat)
    requires !Distinct(seen)
    ensures !Distinct(seen + [token])
  {
    var i, j :| 0 <= i < j < |seen| && seen[i] == seen[j];
    assert (seen + [token])[i] == (seen + [token])[j];
  }

  lemma ShowKeepsSeen(w: World, token: nat, recent: bool, replayed: bool)
    requires SeenRule(w, replayed) && token <= w.live
    ensures SeenRule(Show(w, token, recent).0, replayed || token < w.live)
  {
    var v := Show(w, token, recent).0;
    assert forall t :: t in w.seen ==> t in v.seen;
    if replayed {
      StillTwice(w.seen, token);
    } else if token < w.live {
      ShownAgain(w.seen, token);
    }
  }

  lemma LookKeepsSeen(w: World, a: nat, recent: bool, replayed: bool)
    requires CookieRule(w) && SeenRule(w, replayed) && Enabled(w, ServerLooks(a, recent))
    ensures SeenRule(Look(w, a, recent), replayed || w.lost)
  {
    assert w.flights.Keys == {a};
    ShowKeepsSeen(w, w.flights[a].token, recent, replayed);
  }

  lemma ElseSeen(w: World, e: Event, replayed: bool)
    requires SeenRule(w, replayed) && Enabled(w, e) && !e.ServerLooks? && !e.StrayArrives?
    ensures SeenRule(Step(w, e), replayed)
  {
    var v := Step(w, e);
    assert v.seen == w.seen && v.live == w.live && v.revoked == w.revoked;
  }

  lemma StepKeepsSeen(w: World, e: Event, replayed: bool)
    requires CookieRule(w) && SeenRule(w, replayed) && Enabled(w, e)
    ensures SeenRule(Step(w, e), replayed || Replays(w, e))
  {
    match e
    case ServerLooks(a, recent) => LookKeepsSeen(w, a, recent, replayed);
    case StrayArrives(a, recent) => ShowKeepsSeen(w, w.strays[a], recent, replayed);
    case _ => ElseSeen(w, e, replayed);
  }

  lemma {:induction false} RunKeepsSeen(w: World, es: seq<Event>, replayed: bool)
    requires Inv(w) && SeenRule(w, replayed) && Legal(w, es)
    ensures SeenRule(Run(w, es), replayed || Replayed(w, es))
    decreases |es|
  {
    if es != [] {
      StepKeepsInv(w, es[0]);
      StepKeepsSeen(w, es[0], replayed);
      RunKeepsSeen(Step(w, es[0]), es[1..], replayed || Replays(w, es[0]));
    }
  }

  /** A token is shown to the server twice exactly when a step replays one: the cookie after a new
      token was lost, or a refresh given up before that arrives after another rotation. Until then
      the server sees every token once, in order, and never revokes the chain. */
  lemma NoTokenIsReplayed(es: seq<Event>)
    requires Legal(START, es)
    ensures var w := Run(START, es);
            && (Distinct(w.seen) <==> !Replayed(START, es))
            && (!Replayed(START, es) ==> w.seen == UpTo(w.live) && !w.revoked)
  {
    StartIsGood();
    RunKeepsSeen(START, es, false);
  }

  /** With every refresh answered to the browser, nothing is lost and nothing astray. */
  lemma {:induction false} NothingLost(w: World, es: seq<Event>)
    requires Legal(w, es) && !w.lost && w.strays == map[]
    requires forall i :: 0 <= i < |es| ==> !es[i].Lose?
    ensures !Run(w, es).lost && !Replayed(w, es)
    decreases |es|
  {
    if es != [] {
      assert !es[0].Lose?;
      NothingLost(Step(w, es[0]), es[1..]);
    }
  }

  /** In every interleaving in which each refresh is answered to the browser, the server sees every
      token once, in order, and never revokes the chain. */
  lemma AnsweredRefreshesNeverReplay(es: seq<Event>)
    requires Legal(START, es)
    requires forall i :: 0 <= i < |es| ==> !es[i].Lose?
    ensures var w := Run(START, es);
            !w.revoked && w.seen == UpTo(w.live) && Distinct(w.seen)
  {
    NothingLost(START, es);
    NoTokenIsReplayed(es);
  }

  /** A revoked chain is never renewed again. */
  lemma {:induction false} RevokedForGood(w: World, es: seq<Event>)
    requires w.revoked && Legal(w, es)
    ensures Run(w, es).revoked && Run(w, es).live == w.live
    decreases |es|
  {
    if es != [] {
      RevokedForGood(Step(w, es[0]), es[1..]);
    }
  }

  /** What a lost token costs: the next refresh the server looks at is denied and, once the moment of
      grace is over, ends the chain for good. */
  lemma LostAnswerEndsTheChain(es: seq<Event>, a: nat, recent: bool, after: seq<Event>)
    requires Legal(START, es) && Run(START, es).lost && Enabled(Run(START, es), ServerLooks(a, recent))
    requires Legal(Step(Run(START, es), ServerLooks(a, recent)), after)
    ensures var w := Step(Run(START, es), ServerLooks(a, recent));
            && w.flights[a].answer == Denied
            && (!recent ==> Run(w, after).revoked && Run(w, after).live == w.live)
  {
    StartIsGood();
    RunKeepsInv(START, es);
    if !recent {
      RevokedForGood(Step(Run(START, es), ServerLooks(a, recent)), after);
    }
  }

  /** A step of a run replays a token outside the moment of grace. */
  predicate Ends(w: World, es: seq<Event>)
    requires Legal(w, es)
    decreases |es|
  {
    es != [] && ((Replays(w, es[0]) && !es[0].recent) || Ends(Step(w, es[0]), es[1..]))
  }

  lemma StepRevokes(w: World, e: Event)
    requires CookieRule(w) && Enabled(w, e) && !w.revoked
    ensures Step(w, e).revoked <==> Replays(w, e) && !e.recent
  {
    if e.ServerLooks? {
      assert w.flights.Keys == {e.attempt};
    }
  }

  lemma {:induction false} RevokedOnceReplayed(w: World, es: seq<Event>)
    requires Inv(w) && !w.revoked && Legal(w, es)
    ensures Run(w, es).revoked <==> Ends(w, es)
    decreases |es|
  {
    if es != [] {
      StepRevokes(w, es[0]);
      StepKeepsInv(w, es[0]);
      if Step(w, es[0]).revoked {
        RevokedForGood(Step(w, es[0]), es[1..]);
      } else {
        RevokedOnceReplayed(Step(w, es[0]), es[1..]);
      }
    }
  }

  /** The chain is revoked exactly when a step has replayed a token outside the moment of grace: the
      cookie after a new token was lost, or a refresh given up before that arrives after another
      rotation. */
  lemma SessionEndsExactlyWhen(es: seq<Event>)
    requires Legal(START, es)
    ensures Run(START, es).revoked <==> Ends(START, es)
  {
    StartIsGood();
    RevokedOnceReplayed(START, es);
  }

  lemma RunOfCons(w: World, e: Event, es: seq<Event>)
    requires Enabled(w, e) && Legal(Step(w, e), es)
    ensures Legal(w, [e] + es) && Run(w, [e] + es) == Run(Step(w, e), es)
  {
    assert ([e] + es)[1..] == es;
  }

  lemma RunOfThree(w: World, e1: Event, e2: Event, e3: Event, es: seq<Event>)
    requires Enabled(w, e1) && Enabled(Step(w, e1), e2) && Enabled(Step(Step(w, e1), e2), e3)
    requires Legal(Step(Step(Step(w, e1), e2), e3), es)
    ensures Legal(w, [e1] + ([e2] + ([e3] + es)))
    ensures Run(w, [e1] + ([e2] + ([e3] + es))) == Run(Step(Step(Step(w, e1), e2), e3), es)
  {
    RunOfCons(Step(Step(w, e1), e2), e3, es);
    RunOfCons(Step(w, e1), e2, [e3] + es);
    RunOfCons(w, e1, [e2] + ([e3] + es));
  }

  /** Even without a lost answer the chain can end: a refresh given up before the server saw it
      arrives after the next one was granted and delivered. */
  lemma LateRefreshEndsTheChain(body: Body)
    requires body.Tokens?
    ensures var es := [AskRefresh] + ([Lose(0)] + ([AskRefresh]
                      + ([ServerLooks(1, false)] + ([Deliver(1, body)] + ([StrayArrives(0, false)] + [])))));
            && Legal(START, es)
            && Run(START, es).revoked && !Run(START, es).lost && Run(START, es).seen == [0, 0]
            && Ends(START, es)
  {
    var asked := Step(Step(Step(START, AskRefresh), Lose(0)), AskRefresh);
    assert asked.flights == map[1 := Flight(0, Pending)] && asked.strays == map[0 := 0];
    RunOfThree(asked, ServerLooks(1, false), Deliver(1, body), StrayArrives(0, false), []);
    RunOfThree(START, AskRefresh, Lose(0), AskRefresh,
               [ServerLooks(1, false)] + ([Deliver(1, body)] + ([StrayArrives(0, false)] + [])));
    SessionEndsExactlyWhen([AskRefresh] + ([Lose(0)] + ([AskRefresh]
                           + ([ServerLooks(1, false)] + ([Deliver(1, body)] + ([StrayArrives(0, false)] + []))))));
  }

  // Refreshes

  /** A step that delivers the tokens of a granted refresh. */
  predicate Renews(w: World, e: Event, a: nat) {
    e.Deliver? && e.attempt == a && e.body.Tokens? && a in w.flights && w.flights[a].answer.Granted?
  }

  predicate RenewedIn(w: World, es: seq<Event>, a: nat)
    requires Legal(w, es)
    decreases |es|
  {
    es != [] && (Renews(w, es[0], a) || RenewedIn(Step(w, es[0]), es[1..], a))
  }

  lemma SettledUntouched(w: World, e: Event)
    requires Enabled(w, e) && !e.Deliver? && !e.Lose?
    ensures Step(w, e).settled == w.settled
  {
  }

  lemma StepSettles(w: World, e: Event, a: nat)
    requires OneFlight(w) && Enabled(w, e)
    ensures a in w.settled ==>
              !Renews(w, e, a) && a in Step(w, e).settled && Step(w, e).settled[a] == w.settled[a]
    ensures a !in w.settled && a in Step(w, e).settled ==> (Step(w, e).settled[a] <==> Renews(w, e, a))
    ensures Renews(w, e, a) ==> a in Step(w, e).settled
  {
    if !e.Deliver? && !e.Lose? {
      SettledUntouched(w, e);
    }
  }

  lemma {:induction false} SettledFrom(w: World, es: seq<Event>, a: nat)
    requires Inv(w) && Legal(w, es)
    ensures a in w.settled ==>
              !RenewedIn(w, es, a) && a in Run(w, es).settled && Run(w, es).settled[a] == w.settled[a]
    ensures a !in w.settled && a in Run(w, es).settled ==> (Run(w, es).settled[a] <==> RenewedIn(w, es, a))
    ensures RenewedIn(w, es, a) ==> a in Run(w, es).settled
    decreases |es|
  {
    if es != [] {
      StepKeepsInv(w, es[0]);
      StepSettles(w, es[0], a);
      SettledFrom(Step(w, es[0]), es[1..], a);
    }
  }

  /** A refresh counts as successful exactly when its tokens were delivered. */
  lemma RefreshedExactlyWhenDelivered(es: seq<Event>, a: nat)
    requires Legal(START, es)
    ensures var w := Run(START, es);
            && (a in w.settled ==> (w.settled[a] <==> RenewedIn(START, es, a)))
            && (RenewedIn(START, es, a) ==> a in w.settled)
  {
    StartIsGood();
    SettledFrom(START, es, a);
  }

  /** Signed out: no token, no user. */
  predicate SignedOut(c: Client) {
    c.access == None && c.csrf == None && c.user == None && c.status == Unauthenticated
  }

  /** What a refresh leaves, in whatever run: with its tokens delivered, the access token is the one
      that came and the cookie is live; without tokens nothing changes; denied, unreadable or given
      up, the browser is signed out. In every case it is over. */
  lemma RefreshLeaves(es: seq<Event>, e: Event)
    requires Legal(START, es) && Enabled(Run(START, es), e) && (e.Deliver? || e.Lose?)
    ensures var w := Run(START, es);
            var v := Step(w, e);
            var granted := e.Deliver? && w.flights[e.attempt].answer.Granted?;
            && v.client.inFlight == None && v.flights == map[] && e.attempt in v.settled
            && (if granted && e.body.Tokens? then
                  && v.client.access == Some(e.body.access) && v.jar == v.live && v.settled[e.attempt]
                  && v.client.csrf
                     == (if e.body.csrf.Some? && e.body.csrf.value != "" then e.body.csrf else w.client.csrf)
                  && v.client.user == w.client.user && v.client.status == w.client.status
                else if granted && e.body.Empty? then
                  && !v.settled[e.attempt] && v.jar == v.live
                  && v.client == w.client.(inFlight := None)
                else !v.settled[e.attempt] && SignedOut(v.client))
  {
    StartIsGood();
    RunKeepsInv(START, es);
    assert Step(Run(START, es), e).flights.Keys == {};
  }

  // Calls

  /** The first answer a call got in a run. */
  function FirstReply(es: seq<Event>, id: nat): Option<Reply> {
    if es == [] then None
    else if es[0].Answered? && es[0].id == id then Some(es[0].reply)
    else FirstReply(es[1..], id)
  }

  lemma CallsUntouched(w: World, e: Event)
    requires Enabled(w, e) && !e.Call? && !e.Answered? && !e.Resume?
    ensures Step(w, e).calls == w.calls
  {
  }

  /** What a step does to one call. */
  lemma StepOfCall(w: World, e: Event, id: nat)
    requires Enabled(w, e) && id in w.calls
    requires w.calls[id].phase.First? ==> w.calls[id].waited == None
    ensures id in Step(w, e).calls
    ensures var c, d := w.calls[id], Step(w, e).calls[id];
            if e.Answered? && e.id == id then
              (if c.phase.First? then
                 d.waited.Some? == d.phase.Waiting? == (e.reply == Unauthorized) && !d.phase.First?
               else d.waited == c.waited && d.phase.Finished?)
            else if e == Resume(id) then
              c.phase.Waiting? && d.waited == c.waited && (d.phase.Second? || d.phase.Finished?)
            else d == c
  {
    if !e.Call? && !e.Answered? && !e.Resume? {
      CallsUntouched(w, e);
    }
  }

  lemma StepBeforeCall(w: World, e: Event, id: nat)
    requires Enabled(w, e) && id !in w.calls
    ensures !(e.Answered? && e.id == id) && e != Resume(id)
    ensures id in Step(w, e).calls ==> Step(w, e).calls[id].phase.First? && Step(w, e).calls[id].waited == None
  {
  }

  /** A call past its wait stays so. */
  lemma {:induction false} PastWaiting(w: World, es: seq<Event>, id: nat)
    requires Legal(w, es) && id in w.calls && (w.calls[id].phase.Second? || w.calls[id].phase.Finished?)
    ensures id in Run(w, es).calls && Run(w, es).calls[id].waited == w.calls[id].waited
    ensures !Run(w, es).calls[id].phase.Waiting? && Resume(id) !in es
    decreases |es|
  {
    if es != [] {
      StepOfCall(w, es[0], id);
      PastWaiting(Step(w, es[0]), es[1..], id);
    }
  }

  /** A call goes on after a wait by `Resume` only. */
  lemma {:induction false} WhileWaiting(w: World, es: seq<Event>, id: nat)
    requires Legal(w, es) && id in w.calls && w.calls[id].phase.Waiting?
    ensures id in Run(w, es).calls && Run(w, es).calls[id].waited == w.calls[id].waited
    ensures Run(w, es).calls[id].phase.Waiting? <==> Resume(id) !in es
    decreases |es|
  {
    if es != [] {
      StepOfCall(w, es[0], id);
      if es[0] == Resume(id) {
        PastWaiting(Step(w, es[0]), es[1..], id);
      } else {
        WhileWaiting(Step(w, es[0]), es[1..], id);
      }
    }
  }

  /** A call waits exactly when its first answer is a 401. */
  lemma {:induction false} BeforeWaiting(w: World, es: seq<Event>, id: nat)
    requires Legal(w, es) && id in Run(w, es).calls
    requires id in w.calls ==> w.calls[id].phase.First? && w.calls[id].waited == None
    ensures var l := Run(w, es).calls[id];
            && (l.waited.Some? <==> FirstReply(es, id) == Some(Unauthorized))
            && (l.waited.Some? && !l.phase.Waiting? <==> Resume(id) in es)
    decreases |es|
  {
    if es != [] {
      var v := Step(w, es[0]);
      if id in w.calls {
        StepOfCall(w, es[0], id);
      } else {
        StepBeforeCall(w, es[0], id);
      }
      if id in v.calls && v.calls[id].phase.Waiting? {
        WhileWaiting(v, es[1..], id);
      } else if id in v.calls && !v.calls[id].phase.First? {
        PastWaiting(v, es[1..], id);
      } else {
        BeforeWaiting(v, es[1..], id);
      }
    }
  }

  /** A call is sent when it is made, and again when it goes on after a refresh that was delivered,
      each time under the access token of that moment. */
  lemma SentUnderTheTokenOfTheMoment(es: seq<Event>, e: Event, id: nat)
    requires Legal(START, es) && Enabled(Run(START, es), e)
    ensures var w := Run(START, es);
            var v := Step(w, e);
            && (e.Call? && e.id == id ==>
                  && id in v.calls && v.calls[id].request == e.request && |v.calls[id].sent| == 1
                  && Carries(v.calls[id].sent[0], e.request, w.client.access))
            && (e == Resume(id) ==>
                  var c, d := w.calls[id], v.calls[id];
                  && c.waited.Some? && d.request == c.request
                  && (if RenewedIn(START, es, c.waited.value) then
                        && |d.sent| == |c.sent| + 1 && d.sent[..|c.sent|] == c.sent
                        && Carries(d.sent[|c.sent|], c.request, w.client.access)
                      else d.sent == c.sent))
  {
    var w := Run(START, es);
    if e.Call? {
      ComposeCarries(e.request, w.client.access);
    } else if e == Resume(id) {
      ComposeCarries(w.calls[id].request, w.client.access);
      RefreshedExactlyWhenDelivered(es, w.calls[id].waited.value);
    }
  }

  /** A first 401 waits for the refresh under way, and begins one under the cookie if there is none. */
  lemma UnauthorizedJoinsTheRefresh(es: seq<Event>, id: nat)
    requires Legal(START, es) && Enabled(Run(START, es), Answered(id, Unauthorized))
    requires Run(START, es).calls[id].phase.First?
    ensures var w := Run(START, es);
            var v := Step(w, Answered(id, Unauthorized));
            && v.calls[id].phase.Waiting? && v.calls[id].waited.Some? && v.calls[id].waited.value in v.flights
            && (w.flights != map[] ==> v.flights == w.flights && v.client == w.client)
            && (w.flights == map[] ==> v.flights == map[v.calls[id].waited.value := Flight(w.jar, Pending)])
  {
    StartIsGood();
    RunKeepsInv(START, es);
    var w := Run(START, es);
    assert w.flights == map[] <==> w.flights.Keys == {};
  }

  lemma RuleSpeltOut(w: World, l: Logical)
    requires CallKeepsRule(w, l)
    ensures 1 <= |l.sent| <= 2
    ensures |l.sent| == 2 <==> (l.waited.Some? && !l.phase.Waiting?) && RefreshWorked(w, l)
    ensures l.phase.Waiting? ==> l.waited.Some? && (l.waited.value in w.flights || l.waited.value in w.settled)
  {
  }

  lemma RequestStays(w: World, e: Event, id: nat)
    requires Enabled(w, e)
    ensures id in w.calls ==> id in Step(w, e).calls && Step(w, e).calls[id].request == w.calls[id].request
    ensures id !in w.calls && id in Step(w, e).calls ==> e == Call(id, Step(w, e).calls[id].request)
  {
    if !e.Call? && !e.Answered? && !e.Resume? {
      CallsUntouched(w, e);
    }
  }

  /** Each message asks what the call asked. */
  predicate Asks(m: Message, r: Request) {
    m.verb == r.verb && m.path == r.path && m.body == r.body
  }

  lemma EachAsksTheSame(w: World, l: Logical)
    requires CallKeepsRule(w, l)
    ensures forall i :: 0 <= i < |l.sent| ==> Asks(l.sent[i], l.request)
  {
    forall i | 0 <= i < |l.sent|
      ensures Asks(l.sent[i], l.request)
    {
      assert MessageOf(l.request, l.sent[i]);
      var t :| l.sent[i] == Compose(l.request, t);
      ComposeCarries(l.request, t);
    }
  }

  lemma {:induction false} RequestOfCall(w: World, es: seq<Event>, id: nat)
    requires Legal(w, es) && id in Run(w, es).calls
    ensures var r := Run(w, es).calls[id].request;
            if id in w.calls then r == w.calls[id].request else Call(id, r) in es
    decreases |es|
  {
    if es != [] {
      RequestStays(w, es[0], id);
      RequestOfCall(Step(w, es[0]), es[1..], id);
    }
  }

  lemma TwiceIsTheSameCall(w: World, l: Logical)
    requires CallKeepsRule(w, l)
    ensures |l.sent| == 2 ==> SameCall(l.sent[0], l.sent[1])
  {
    if |l.sent| == 2 {
      assert MessageOf(l.request, l.sent[0]) && MessageOf(l.request, l.sent[1]);
      var s :| l.sent[0] == Compose(l.request, s);
      var t :| l.sent[1] == Compose(l.request, t);
      ReplayIsTheSameCall(l.request, s, t);
    }
  }

  /** A request is sent at most twice: twice exactly when its first answer was a 401, it has gone on
      after the wait, and the tokens of the refresh it waited for were delivered. Each message asks
      what the call asked, and the second differs from the first in the bearer token only. A call
      that waits is waiting for something that will settle. */
  lemma EveryCallRetriesOnce(es: seq<Event>, id: nat)
    requires Legal(START, es) && id in Run(START, es).calls
    ensures var w := Run(START, es);
            var l := w.calls[id];
            && 1 <= |l.sent| <= 2
            && (|l.sent| == 2 <==> Resume(id) in es && l.waited.Some? && RenewedIn(START, es, l.waited.value))
            && (l.waited.Some? <==> FirstReply(es, id) == Some(Unauthorized))
            && Call(id, l.request) in es && (forall i :: 0 <= i < |l.sent| ==> Asks(l.sent[i], l.request))
            && (|l.sent| == 2 ==> SameCall(l.sent[0], l.sent[1]))
            && (l.phase.Waiting? ==> l.waited.Some? && (l.waited.value in w.flights || l.waited.value in w.settled))
  {
    StartIsGood();
    RunKeepsInv(START, es);
    BeforeWaiting(START, es, id);
    RequestOfCall(START, es, id);
    var w := Run(START, es);
    RuleSpeltOut(w, w.calls[id]);
    EachAsksTheSame(w, w.calls[id]);
    TwiceIsTheSameCall(w, w.calls[id]);
    if w.calls[id].waited.Some? {
      RefreshedExactlyWhenDelivered(es, w.calls[id].waited.value);
    }
  }
}
