/** The settlement series of the finance page: which answer is drawn, under which workspace.

    A state change outside a click is drawn by a later `Commit`, and an effect of that commit runs
    later still; answers may arrive in between. A click's change is drawn, and its effect run,
    before anything else happens. */
module SettlementSeries {
  import opened Options

  type Ref = string

  type Month = string

  /** How a series request ends: with items, refused because the workspace is gone, or failed. */
  datatype Answer = Items(months: seq<Month>) | Refused | Failed(message: string)

  datatype Page = Page(
    active: Option<Ref>,
    workspaces: seq<Ref>,
    lossHandledFor: Option<Ref>,
    series: seq<Month>,
    error: Option<string>,
    loadedFor: Option<Ref>,
    request: nat)

  const BLANK := Page(None, [], None, [], None, None, 0)

  // ----- The component's callbacks, each up to its await

  function ClearContent(p: Page): Page {
    p.(series := [], error := None, loadedFor := None)
  }

  function BeginSeries(p: Page): Page {
    p.(request := p.request + 1, error := None, loadedFor := None)
  }

  function Without(refs: seq<Ref>, ref: Ref): seq<Ref> {
    if refs == [] then []
    else if refs[0] == ref then Without(refs[1..], ref)
    else [refs[0]] + Without(refs[1..], ref)
  }

  function LoseAuthority(p: Page, ref: Ref): Page {
    if p.lossHandledFor == Some(ref) then p
    else ClearContent(p.(lossHandledFor := Some(ref))).(active := None, workspaces := Without(p.workspaces, ref))
  }

  function AnswerSeries(p: Page, request: nat, ref: Ref, answer: Answer): Page {
    if request != p.request then p
    else
      match answer
      case Items(months) => p.(series := months, loadedFor := Some(ref))
      case Refused => LoseAuthority(p, ref)
      case Failed(message) => p.(error := Some(message))
  }

  function ListWorkspaces(p: Page, refs: seq<Ref>): Page {
    p.(workspaces := refs,
       active := if p.active.Some? && p.active.value in refs then p.active
                 else if |refs| == 1 then Some(refs[0]) else None)
  }

  /** `drawn` is the active workspace of the drawing that was clicked on. */
  function Select(p: Page, drawn: Option<Ref>, ref: Ref): Page {
    if drawn == Some(ref) then p else ClearContent(p).(active := Some(ref))
  }

  /** The effect on the active workspace, as far as the series goes. */
  function OnActive(p: Page): Page {
    BeginSeries(p.(lossHandledFor := None))
  }

  /** What the trend section shows. */
  datatype Shown = Closed | Error(message: string) | Loading | Chart(months: seq<Month>)

  function Draw(p: Page): Shown {
    if p.active == None || p.active.value !in p.workspaces then Closed
    else if p.error.Some? then Error(p.error.value)
    else if p.loadedFor != p.active then Loading
    else Chart(p.series)
  }

  class FinancePage {
    var activeRef: Option<Ref>
    var workspaces: seq<Ref>
    var authorityLossHandledFor: Option<Ref>
    var series: seq<Month>
    var seriesError: Option<string>
    var seriesLoadedFor: Option<Ref>
    var seriesRequest: nat

    function View(): Page
      reads this
    {
      Page(activeRef, workspaces, authorityLossHandledFor, series, seriesError, seriesLoadedFor, seriesRequest)
    }

    constructor ()
      ensures View() == BLANK
    {
      activeRef, workspaces, authorityLossHandledFor := None, [], None;
      series, seriesError, seriesLoadedFor, seriesRequest := [], None, None, 0;
    }

    method Clear()
      modifies this
      ensures View() == ClearContent(old(View()))
    {
      series := [];
      seriesError := None;
      seriesLoadedFor := None;
    }

    /** `loadSeries` up to the request; the number it took travels with the request. */
    method LoadSeries() returns (request: nat)
      modifies this
      ensures View() == BeginSeries(old(View())) && request == View().request
    {
      seriesRequest := seriesRequest + 1;
      request := seriesRequest;
      seriesError := None;
      seriesLoadedFor := None;
    }

    method HandleAuthorityLoss(ref: Ref)
      modifies this
      ensures View() == LoseAuthority(old(View()), ref)
    {
      if authorityLossHandledFor == Some(ref) {
        return;
      }
      authorityLossHandledFor := Some(ref);
      Clear();
      activeRef := None;
      workspaces := Without(workspaces, ref);
    }

    /** `loadSeries` from the answer on. */
    method SeriesAnswered(request: nat, ref: Ref, answer: Answer)
      modifies this
      ensures View() == AnswerSeries(old(View()), request, ref, answer)
    {
      if request != seriesRequest {
        return;
      }
      match answer {
        case Items(months) =>
          series := months;
          seriesLoadedFor := Some(ref);
        case Refused =>
          HandleAuthorityLoss(ref);
        case Failed(message) =>
          seriesError := Some(message);
      }
    }

    method WorkspacesAnswered(refs: seq<Ref>)
      modifies this
      ensures View() == ListWorkspaces(old(View()), refs)
    {
      workspaces := refs;
      if !(activeRef.Some? && activeRef.value in refs) {
        activeRef := if |refs| == 1 then Some(refs[0]) else None;
      }
    }

    method SelectWorkspace(drawn: Option<Ref>, ref: Ref)
      modifies this
      ensures View() == Select(old(View()), drawn, ref)
    {
      if drawn == Some(ref) {
        return;
      }
      Clear();
      activeRef := Some(ref);
    }

    method ActiveEffect() returns (request: nat)
      modifies this
      ensures View() == OnActive(old(View())) && request == View().request
    {
      authorityLossHandledFor := None;
      request := LoadSeries();
    }
  }

  // ----- The page, its drawing, and the requests under way

  /** `committed` is the active workspace last drawn and `screen` what was drawn; `effectDue` says
      that its effect has not run yet. `asked` lists the workspace of every `loadSeries` call, so
      call `n` is for `asked[n - 1]`; `answers` is what the calls got, and `listings` counts the
      requests for the workspace list under way. */
  datatype World = World(
    page: Page,
    committed: Option<Ref>,
    effectDue: bool,
    screen: Shown,
    inFlight: set<nat>,
    asked: seq<Ref>,
    answers: map<nat, Answer>,
    listings: nat)

  datatype Event =
    | Respond(request: nat, answer: Answer)
    | OtherRefusal(ref: Ref)
    | Listed(refs: seq<Ref>)
    | Commit
    | Effect
    | Click(ref: Ref)
    | Retry

  const START := World(BLANK, None, false, Closed, {}, [], map[], 1)

  predicate Enabled(w: World, e: Event) {
    match e
    case Respond(n, _) => n in w.inFlight && 0 < n <= |w.asked|
    case OtherRefusal(ref) => ref in w.asked
    case Listed(_) => w.listings > 0
    case Commit => !w.effectDue
    case Effect => w.effectDue
    case Click(_) => !w.effectDue
    case Retry => !w.effectDue && w.screen.Error? && w.committed.Some?
  }

  /** A `loadSeries` call for `ref`, already begun on the page. */
  function Ask(w: World, p: Page, ref: Ref): World {
    w.(page := p, inFlight := w.inFlight + {p.request}, asked := w.asked + [ref])
  }

  /** The loss of a workspace asks for the list anew, unless it was handled before. */
  function Refuse(w: World, ref: Ref): World {
    w.(page := LoseAuthority(w.page, ref),
       listings := w.listings + (if w.page.lossHandledFor == Some(ref) then 0 else 1))
  }

  function RespondStep(w: World, n: nat, answer: Answer): World
    requires 0 < n <= |w.asked|
  {
    var v := w.(inFlight := w.inFlight - {n}, answers := w.answers[n := answer]);
    if n == w.page.request && answer.Refused? then Refuse(v, w.asked[n - 1])
    else v.(page := AnswerSeries(w.page, n, w.asked[n - 1], answer))
  }

  function CommitStep(w: World): World {
    w.(screen := Draw(w.page), committed := w.page.active, effectDue := w.page.active != w.committed)
  }

  function EffectStep(w: World): World {
    var v := w.(effectDue := false);
    match w.committed
    case None => v
    case Some(ref) => Ask(v, OnActive(v.page), ref)
  }

  function ClickStep(w: World, ref: Ref): World {
    var v := CommitStep(w.(page := Select(w.page, w.committed, ref)));
    if v.effectDue then EffectStep(v) else v
  }

  function Step(w: World, e: Event): World
    requires Enabled(w, e)
  {
    match e
    case Respond(n, answer) => RespondStep(w, n, answer)
    case OtherRefusal(ref) => Refuse(w, ref)
    case Listed(refs) => w.(page := ListWorkspaces(w.page, refs), listings := w.listings - 1)
    case Commit => CommitStep(w)
    case Effect => EffectStep(w)
    case Click(ref) => ClickStep(w, ref)
    case Retry => Ask(w, BeginSeries(w.page), w.committed.value)
  }

  predicate Legal(w: World, es: seq<Event>)
    decreases |es|
  {
    es == [] || (Enabled(w, es[0]) && Legal(Step(w, es[0]), es[1..]))
  }

  function Run(w: World, es: seq<Event>): World
    requires Legal(w, es)
    decreases |es|
  {
    if es == [] then w else Run(Step(w, es[0]), es[1..])
  }

  // ----- What every step keeps

  /** Calls are numbered from 1, and each is under way or answered but not both. */
  ghost predicate Numbered(w: World) {
    && |w.asked| == w.page.request
    && (forall n :: n in w.inFlight ==> 0 < n <= w.page.request && n !in w.answers)
    && (forall n :: n in w.answers ==> 0 < n <= w.page.request)
  }

  /** What the page holds comes from the answer to the latest call, and no other. */
  ghost predicate Latest(w: World)
    requires Numbered(w)
  {
    && (w.page.loadedFor.Some? ==>
          && w.page.request in w.answers && w.answers[w.page.request] == Items(w.page.series)
          && w.asked[w.page.request - 1] == w.page.loadedFor.value)
    && (w.page.error.Some? ==>
          w.page.request in w.answers && w.answers[w.page.request] == Failed(w.page.error.value))
  }

  /** Once the effect of the drawn workspace has run, the latest call is for that workspace. */
  ghost predicate AskedForCommitted(w: World)
    requires Numbered(w)
  {
    !w.effectDue && w.committed.Some? ==> w.page.request > 0 && w.asked[w.page.request - 1] == w.committed.value
  }

  ghost predicate Inv(w: World) {
    Numbered(w) && Latest(w) && AskedForCommitted(w)
  }

  lemma LossKeepsInv(w: World, ref: Ref)
    requires Inv(w)
    ensures Inv(Refuse(w, ref))
  {
  }

  lemma CommitKeepsInv(w: World)
    requires Inv(w) && !w.effectDue
    ensures Inv(CommitStep(w))
  {
  }

  lemma EffectKeepsInv(w: World)
    requires Inv(w) && w.effectDue
    ensures Inv(EffectStep(w))
  {
  }

  lemma RetryKeepsInv(w: World)
    requires Inv(w) && Enabled(w, Retry)
    ensures Inv(Step(w, Retry))
  {
  }

  lemma RespondKeepsInv(w: World, n: nat, answer: Answer)
    requires Inv(w) && Enabled(w, Respond(n, answer))
    ensures Inv(Step(w, Respond(n, answer)))
  {
  }

  lemma StepKeepsInv(w: World, e: Event)
    requires Inv(w) && Enabled(w, e)
    ensures Inv(Step(w, e))
  {
    match e
    case Respond(n, answer) => RespondKeepsInv(w, n, answer);
    case OtherRefusal(ref) => LossKeepsInv(w, ref);
    case Listed(refs) =>
    case Commit => CommitKeepsInv(w);
    case Effect => EffectKeepsInv(w);
    case Click(ref) =>
      var v := w.(page := Select(w.page, w.committed, ref));
      CommitKeepsInv(v);
      if CommitStep(v).effectDue {
        EffectKeepsInv(CommitStep(v));
      }
    case Retry => RetryKeepsInv(w);
  }

  lemma {:induction false} RunKeepsInv(w: World, es: seq<Event>)
    requires Inv(w) && Legal(w, es)
    ensures Inv(Run(w, es))
    decreases |es|
  {
    if es != [] {
      StepKeepsInv(w, es[0]);
      RunKeepsInv(Step(w, es[0]), es[1..]);
    }
  }

  // ----- What is drawn

  /** The workspace of the latest `loadSeries` call. */
  function LatestFor(w: World): (ref: Ref)
    requires w.asked != []
  {
    w.asked[|w.asked| - 1]
  }

  /** What is drawn after any run: a chart is the answer to the latest call and belongs to the
      active workspace; an error is the failure of the latest call. */
  lemma DrawnIsLatest(es: seq<Event>)
    requires Legal(START, es)
    ensures var w := Run(START, es);
            match Draw(w.page)
            case Chart(months) =>
              && w.asked != [] && w.page.active == Some(LatestFor(w))
              && |w.asked| in w.answers && w.answers[|w.asked|] == Items(months)
            case Error(message) =>
              w.page.active.Some? && |w.asked| in w.answers && w.answers[|w.asked|] == Failed(message)
            case Loading => w.page.active.Some?
            case Closed => true
  {
    RunKeepsInv(START, es);
  }

  // ----- Whose error is drawn

  /** The events that make a `loadSeries` call. */
  predicate Asks(w: World, e: Event) {
    match e
    case Effect => w.committed.Some?
    case Click(ref) =>
      var active := Select(w.page, w.committed, ref).active;
      active.Some? && active != w.committed
    case Retry => true
    case _ => false
  }

  /** The workspace drawn when the latest call of a run was made, as a page could remember it; `so`
      is the one remembered before the run. */
  function DrawnAtCall(w: World, es: seq<Event>, so: Option<Ref>): Option<Ref>
    requires Legal(w, es)
    decreases |es|
  {
    if es == [] then so
    else
      var v := Step(w, es[0]);
      DrawnAtCall(v, es[1..], if Asks(w, es[0]) then v.committed else so)
  }

  lemma StepAsks(w: World, e: Event)
    requires Enabled(w, e)
    ensures var v := Step(w, e);
            if Asks(w, e) then v.committed.Some? && v.asked == w.asked + [v.committed.value] else v.asked == w.asked
  {
  }

  lemma {:induction false} CallIsForDrawn(w: World, es: seq<Event>, so: Option<Ref>)
    requires Legal(w, es) && so == (if w.asked == [] then None else Some(LatestFor(w)))
    ensures var v := Run(w, es);
            DrawnAtCall(w, es, so) == if v.asked == [] then None else Some(LatestFor(v))
    decreases |es|
  {
    if es != [] {
      StepAsks(w, es[0]);
      var v := Step(w, es[0]);
      CallIsForDrawn(v, es[1..], if Asks(w, es[0]) then v.committed else so);
    }
  }

  /** Whose error is drawn after any run. While a workspace is drawn and its effect has run, the error
      belongs to the active workspace exactly when that is the one drawn, so it always does once the
      drawing has caught up; when the effect is due, it puts the error away. At any time the error
      belongs to the workspace that was drawn when the latest call was made. */
  lemma ErrorBelongs(es: seq<Event>)
    requires Legal(START, es) && Draw(Run(START, es).page).Error?
    ensures var w := Run(START, es);
            && w.asked != []
            && (!w.effectDue && w.committed.Some? ==>
                  (w.page.active == Some(LatestFor(w)) <==> w.page.active == w.committed))
            && (w.effectDue && w.committed.Some? ==> Step(w, Effect).page.error == None)
            && (w.page.active == Some(LatestFor(w)) <==> w.page.active == DrawnAtCall(START, es, None))
  {
    RunKeepsInv(START, es);
    CallIsForDrawn(START, es, None);
  }

  // ----- What became of the latest answer

  /** A loss that takes effect, clearing the page. The latest call's own refusal is its answer. */
  predicate Loses(w: World, e: Event) {
    e.OtherRefusal? && w.page.lossHandledFor != Some(e.ref)
  }

  function ClearedAfter(w: World, e: Event, so: bool): bool {
    if Loses(w, e) then true
    else if Asks(w, e) || (e.Respond? && e.request == |w.asked|) then false
    else so
  }

  /** Whether a loss has taken effect since the latest call was answered; `so` is what held before
      the run. */
  predicate Cleared(w: World, es: seq<Event>, so: bool)
    requires Legal(w, es)
    decreases |es|
  {
    if es == [] then so
    else Cleared(Step(w, es[0]), es[1..], ClearedAfter(w, es[0], so))
  }

  /** The page holds the latest answer, unless it was cleared since. */
  ghost predicate HoldsAnswer(w: World, cleared: bool) {
    var p := w.page;
    if |w.asked| !in w.answers || cleared then p.loadedFor == None && p.error == None
    else
      w.asked != []
      && match w.answers[|w.asked|]
         case Items(months) => p.loadedFor == Some(LatestFor(w)) && p.series == months && p.error == None
         case Failed(message) => p.loadedFor == None && p.error == Some(message)
         case Refused => p.loadedFor == None && p.error == None
  }

  lemma RespondHoldsAnswer(w: World, n: nat, answer: Answer, so: bool)
    requires Inv(w) && HoldsAnswer(w, so) && Enabled(w, Respond(n, answer))
    ensures HoldsAnswer(Step(w, Respond(n, answer)), if n == |w.asked| then false else so)
  {
  }

  lemma AskedStepHoldsAnswer(w: World, e: Event)
    requires Inv(w) && Enabled(w, e) && Asks(w, e)
    ensures HoldsAnswer(Step(w, e), false)
  {
    var v := Step(w, e);
    assert v.page.request == w.page.request + 1 == |v.asked| && v.answers == w.answers;
  }

  lemma StepHoldsAnswer(w: World, e: Event, so: bool)
    requires Inv(w) && HoldsAnswer(w, so) && Enabled(w, e)
    ensures HoldsAnswer(Step(w, e), ClearedAfter(w, e, so))
  {
    if e.Respond? {
      RespondHoldsAnswer(w, e.request, e.answer, so);
    } else if Asks(w, e) {
      AskedStepHoldsAnswer(w, e);
    }
  }

  lemma {:induction false} RunHoldsAnswer(w: World, es: seq<Event>, so: bool)
    requires Inv(w) && HoldsAnswer(w, so) && Legal(w, es)
    ensures HoldsAnswer(Run(w, es), Cleared(w, es, so))
    decreases |es|
  {
    if es != [] {
      StepKeepsInv(w, es[0]);
      StepHoldsAnswer(w, es[0], so);
      RunHoldsAnswer(Step(w, es[0]), es[1..], ClearedAfter(w, es[0], so));
    }
  }

  /** What is drawn after any run, from the answer to the latest call. Without an active workspace that
      is listed, nothing is. Otherwise the answer is drawn exactly when there is one and no loss has
      taken effect since, items under their own workspace only; else the page is loading. */
  lemma LatestIsDrawn(es: seq<Event>)
    requires Legal(START, es)
    ensures var w := Run(START, es);
            var n := |w.asked|;
            Draw(w.page) ==
              if w.page.active == None || w.page.active.value !in w.page.workspaces then Closed
              else if n !in w.answers || Cleared(START, es, false) then Loading
              else
                match w.answers[n]
                case Items(months) => if n > 0 && w.page.active == Some(w.asked[n - 1]) then Chart(months) else Loading
                case Failed(message) => Error(message)
                case Refused => Loading
  {
    RunKeepsInv(START, es);
    RunHoldsAnswer(START, es, false);
  }

  // ----- Selections and refusals

  /** A change of workspace by a click draws neither chart nor error: its call has just begun. */
  lemma ClickAsksAfresh(w: World, ref: Ref)
    requires Inv(w) && Enabled(w, Click(ref)) && w.committed != Some(ref)
    ensures var v := Step(w, Click(ref));
            && (v.screen == Loading || v.screen == Closed)
            && v.page.active == Some(ref) && LatestFor(v) == ref && |v.asked| == |w.asked| + 1
            && v.page.request in v.inFlight && v.page.loadedFor == None && v.page.error == None
  {
  }

  lemma {:induction false} WithoutKeepsOthers(refs: seq<Ref>, ref: Ref)
    ensures forall r :: r in Without(refs, ref) <==> r in refs && r != ref
  {
    if refs != [] {
      WithoutKeepsOthers(refs[1..], ref);
      assert refs == [refs[0]] + refs[1..];
    }
  }

  /** The refusal of the latest call takes the active workspace away and leaves nothing drawn, unless
      that loss was handled before, when the page stays as it is; when the drawn workspace is active
      and its effect has run, it is that workspace that is lost. */
  lemma RefusalOfTheLatest(w: World)
    requires Inv(w) && Enabled(w, Respond(w.page.request, Refused))
    ensures var v := Step(w, Respond(w.page.request, Refused));
            if w.page.lossHandledFor == Some(LatestFor(w)) then v.page == w.page && v.listings == w.listings
            else
              && v.page.active == None && Draw(v.page) == Closed && v.listings == w.listings + 1
              && LatestFor(w) !in v.page.workspaces
              && (forall r :: r != LatestFor(w) ==> (r in v.page.workspaces <==> r in w.page.workspaces))
              && (!w.effectDue && w.committed.Some? && w.page.active == w.committed ==>
                    w.page.active == Some(LatestFor(w)))
  {
    WithoutKeepsOthers(w.page.workspaces, LatestFor(w));
  }

  /** A click on the workspace that is drawn leaves the page as it is. */
  lemma ClickOnDrawn(w: World, ref: Ref)
    requires Enabled(w, Click(ref)) && w.committed == Some(ref) && w.page.active == w.committed
    ensures var v := Step(w, Click(ref));
            v.page == w.page && v.asked == w.asked && v.screen == Draw(w.page) && !v.effectDue
  {
  }

  /** A list of workspaces is taken over with nothing else of the page: the active workspace stays if
      it is listed, else the only one listed is active, else none is. */
  lemma ListIsTakenOver(w: World, refs: seq<Ref>)
    requires Enabled(w, Listed(refs))
    ensures var v := Step(w, Listed(refs));
            && v.page.workspaces == refs && v.listings == w.listings - 1
            && v.page == w.page.(active := v.page.active, workspaces := refs)
            && (w.page.active.Some? && w.page.active.value in refs ==> v.page.active == w.page.active)
            && (!(w.page.active.Some? && w.page.active.value in refs) ==>
                  (v.page.active.Some? <==> |refs| == 1) && (|refs| == 1 ==> v.page.active == Some(refs[0])))
  {
  }

  // ----- Losses

  /** The events that open a workspace: its effect, or a click on it that changes the workspace. */
  predicate Opens(w: World, e: Event, ref: Ref) {
    || (e.Effect? && w.committed == Some(ref))
    || (e == Click(ref) && w.committed != Some(ref))
  }

  /** The events that report a workspace lost. */
  predicate ReportsLost(w: World, e: Event, ref: Ref)
    requires Enabled(w, e)
  {
    || e == OtherRefusal(ref)
    || (e.Respond? && e.answer.Refused? && w.asked[e.request - 1] == ref)
  }

  predicate ReportedLost(w: World, es: seq<Event>, ref: Ref)
    requires Legal(w, es)
    decreases |es|
  {
    es != [] && (ReportsLost(w, es[0], ref) || ReportedLost(Step(w, es[0]), es[1..], ref))
  }

  lemma OpeningForgets(w: World, e: Event, ref: Ref)
    requires Enabled(w, e) && Opens(w, e, ref)
    ensures Step(w, e).page.lossHandledFor == None
  {
  }

  lemma OnlyReportsAreHandled(w: World, e: Event, ref: Ref)
    requires Enabled(w, e) && !ReportsLost(w, e, ref) && w.page.lossHandledFor != Some(ref)
    ensures Step(w, e).page.lossHandledFor != Some(ref)
  {
  }

  lemma {:induction false} Unhandled(w: World, es: seq<Event>, ref: Ref)
    requires Legal(w, es) && !ReportedLost(w, es, ref) && w.page.lossHandledFor != Some(ref)
    ensures Run(w, es).page.lossHandledFor != Some(ref)
    decreases |es|
  {
    if es != [] {
      OnlyReportsAreHandled(w, es[0], ref);
      Unhandled(Step(w, es[0]), es[1..], ref);
    }
  }

  /** A workspace is no longer active nor listed, the others are as before, nothing is drawn, and the
      list is asked for again. */
  ghost predicate IsLost(w: World, v: World, ref: Ref) {
    && v.page.active == None && Draw(v.page) == Closed && v.listings == w.listings + 1
    && v.page.series == [] && v.page.error == None && v.page.loadedFor == None
    && (forall r :: r in v.page.workspaces <==> r in w.page.workspaces && r != ref)
  }

  lemma FreshLoss(w: World, loss: Event, ref: Ref)
    requires Numbered(w) && Enabled(w, loss) && ReportsLost(w, loss, ref)
    requires w.page.lossHandledFor != Some(ref) && (loss.Respond? ==> loss.request == |w.asked|)
    ensures IsLost(w, Step(w, loss), ref)
  {
    WithoutKeepsOthers(w.page.workspaces, ref);
  }

  /** Once a workspace has been opened, its next loss takes effect, whatever comes between and whatever
      was lost before: the latest call's refusal, or a refusal of another section. */
  lemma NextLossTakesEffect(before: seq<Event>, open: Event, since: seq<Event>, loss: Event, ref: Ref)
    requires Legal(START, before) && Enabled(Run(START, before), open) && Opens(Run(START, before), open, ref)
    requires var w := Step(Run(START, before), open); Legal(w, since) && !ReportedLost(w, since, ref)
    requires var w := Run(Step(Run(START, before), open), since);
             && Enabled(w, loss) && ReportsLost(w, loss, ref)
             && (loss.Respond? ==> loss.request == |w.asked|)
    ensures var w := Run(Step(Run(START, before), open), since);
            IsLost(w, Step(w, loss), ref)
  {
    var shown := Step(Run(START, before), open);
    RunKeepsInv(START, before);
    StepKeepsInv(Run(START, before), open);
    RunKeepsInv(shown, since);
    OpeningForgets(Run(START, before), open, ref);
    Unhandled(shown, since, ref);
    FreshLoss(Run(shown, since), loss, ref);
  }

  /** The same loss reported again, by another section, changes nothing more. */
  lemma LossTakesEffectOnce(w: World, ref: Ref)
    requires Enabled(w, OtherRefusal(ref))
    ensures var v := Step(w, OtherRefusal(ref));
            Enabled(v, OtherRefusal(ref)) && Step(v, OtherRefusal(ref)) == v
  {
  }

  // ----- Older answers are dropped whole

  /** An answer to any call but the latest. */
  predicate Old(w: World, e: Event) {
    e.Respond? && e.request != w.page.request
  }

  /** A run without the old answers. */
  function Heeded(w: World, es: seq<Event>): seq<Event>
    requires Legal(w, es)
    decreases |es|
  {
    if es == [] then []
    else if Old(w, es[0]) then Heeded(Step(w, es[0]), es[1..])
    else [es[0]] + Heeded(Step(w, es[0]), es[1..])
  }

  /** Alike but for calls whose answers are still awaited in `v`. */
  ghost predicate Alike(w: World, v: World) {
    && w == v.(inFlight := w.inFlight, answers := w.answers)
    && w.inFlight <= v.inFlight
  }

  lemma StepAlike(w: World, v: World, e: Event)
    requires Numbered(w) && Alike(w, v) && Enabled(w, e)
    ensures Old(w, e) ==> Alike(Step(w, e), v)
    ensures !Old(w, e) ==> Enabled(v, e) && Alike(Step(w, e), Step(v, e))
  {
  }

  lemma RunOfCons(w: World, e: Event, es: seq<Event>)
    requires Enabled(w, e) && Legal(Step(w, e), es)
    ensures Legal(w, [e] + es) && Run(w, [e] + es) == Run(Step(w, e), es)
  {
    assert ([e] + es)[1..] == es;
  }

  lemma {:induction false} RunAlike(w: World, v: World, es: seq<Event>)
    requires Inv(w) && Alike(w, v) && Legal(w, es)
    ensures Legal(v, Heeded(w, es)) && Alike(Run(w, es), Run(v, Heeded(w, es)))
    decreases |es|
  {
    if es != [] {
      StepKeepsInv(w, es[0]);
      StepAlike(w, v, es[0]);
      if Old(w, es[0]) {
        RunAlike(Step(w, es[0]), v, es[1..]);
      } else {
        RunAlike(Step(w, es[0]), Step(v, es[0]), es[1..]);
        RunOfCons(v, es[0], Heeded(Step(w, es[0]), es[1..]));
      }
    }
  }

  /** Every answer, failure and refusal of a call that is no longer the latest is dropped whole: the
      run without them draws the same and asks the same. */
  lemma OlderAnswersDropped(es: seq<Event>)
    requires Legal(START, es)
    ensures Legal(START, Heeded(START, es))
    ensures var w, v := Run(START, es), Run(START, Heeded(START, es));
            w.page == v.page && w.screen == v.screen && w.asked == v.asked && w.listings == v.listings
  {
    RunAlike(START, START, es);
  }

  // ----- Runs that fall short

  lemma {:induction false} RunOfBoth(w: World, es: seq<Event>, fs: seq<Event>)
    requires Legal(w, es) && Legal(Run(w, es), fs)
    ensures Legal(w, es + fs) && Run(w, es + fs) == Run(Run(w, es), fs)
    decreases |es|
  {
    if es == [] {
      assert es + fs == fs;
    } else {
      RunOfBoth(Step(w, es[0]), es[1..], fs);
      assert (es + fs)[1..] == es[1..] + fs;
    }
  }

  lemma RunOfThree(w: World, e1: Event, e2: Event, e3: Event)
    requires Enabled(w, e1) && Enabled(Step(w, e1), e2) && Enabled(Step(Step(w, e1), e2), e3)
    ensures Legal(w, [e1, e2, e3]) && Run(w, [e1, e2, e3]) == Step(Step(Step(w, e1), e2), e3)
  {
    assert [e1, e2, e3] == [e1] + ([e2] + [e3]);
    RunOfCons(Step(Step(w, e1), e2), e3, []);
    RunOfCons(Step(w, e1), e2, [e3]);
    RunOfCons(w, e1, [e2] + [e3]);
  }

  /** The failure of a lost workspace is kept while none is active, and drawn under the next one
      opened by the list until its effect has run. */
  lemma ErrorUnderAnother(x: Ref, a: Ref, message: string)
    requires a != x
    ensures var es := [Listed([x]), Commit, Effect]
                      + ([OtherRefusal(x), Commit, Effect] + [Respond(1, Failed(message)), Listed([a]), Commit]);
            && Legal(START, es)
            && Run(START, es).screen == Error(message)
            && Run(START, es).page.active == Some(a)
            && Run(START, es).asked == [x] && DrawnAtCall(START, es, None) == Some(x)
  {
    var shown := World(Page(Some(x), [x], None, [], None, None, 1), Some(x), false, Loading, {1}, [x], map[], 0);
    var lost := World(Page(None, [], Some(x), [], None, None, 1), None, false, Closed, {1}, [x], map[], 1);
    var losing := [OtherRefusal(x), Commit, Effect];
    var failing := [Respond(1, Failed(message)), Listed([a]), Commit];
    assert Run(START, [Listed([x]), Commit, Effect]) == shown by {
      RunOfThree(START, Listed([x]), Commit, Effect);
    }
    assert Legal(shown, losing) && Run(shown, losing) == lost by {
      assert Without([x], x) == [];
      RunOfThree(shown, OtherRefusal(x), Commit, Effect);
    }
    RunOfThree(lost, Respond(1, Failed(message)), Listed([a]), Commit);
    RunOfBoth(shown, losing, failing);
    RunOfBoth(START, [Listed([x]), Commit, Effect], losing + failing);
    CallIsForDrawn(START, [Listed([x]), Commit, Effect] + (losing + failing), None);
  }

  lemma AfterLoss(q: Ref, y: Ref)
    requires q != y
    ensures Without([q, y], y) == [q]
  {
    assert [q, y][1..] == [y] && [y][1..] == [];
    assert Without([y], y) == [];
  }

  /** Two workspaces asked for one after the other. */
  function BothAsked(q: Ref, y: Ref): World {
    World(Page(Some(q), [q, y], None, [], None, None, 2), Some(q), false, Loading, {1, 2}, [y, q], map[], 0)
  }

  /** Both answered, and the first one lost. */
  function FirstLost(q: Ref, y: Ref, answer: Answer): World {
    World(Page(None, [q], Some(y), [], None, None, 2), Some(q), false, Loading, {}, [y, q],
          map[2 := answer, 1 := answer], 1)
  }

  lemma AskBoth(q: Ref, y: Ref)
    requires q != y
    ensures var es := [Listed([q, y]), Click(y), Click(q)];
            Legal(START, es) && Run(START, es) == BothAsked(q, y)
  {
    RunOfThree(START, Listed([q, y]), Click(y), Click(q));
  }

  lemma LoseFirst(q: Ref, y: Ref, months: seq<Month>)
    requires q != y
    ensures var es := [Respond(2, Items(months)), Respond(1, Items(months)), OtherRefusal(y)];
            Legal(BothAsked(q, y), es) && Run(BothAsked(q, y), es) == FirstLost(q, y, Items(months))
  {
    AfterLoss(q, y);
    RunOfThree(BothAsked(q, y), Respond(2, Items(months)), Respond(1, Items(months)), OtherRefusal(y));
  }

  lemma ListedBack(q: Ref, y: Ref, answer: Answer)
    ensures var w := FirstLost(q, y, answer);
            var es := [Listed([q]), Commit];
            && Legal(w, es)
            && Run(w, es) == w.(page := w.page.(active := Some(q)), listings := 0)
  {
    var w := FirstLost(q, y, answer);
    RunOfCons(Step(w, Listed([q])), Commit, []);
    RunOfCons(w, Listed([q]), [Commit] + []);
    assert [Listed([q]), Commit] == [Listed([q])] + ([Commit] + []);
  }

  /** A workspace lost and put back by the list between two drawings is cleared and never asked for
      again: it is active, listed and drawn, its call is answered, nothing is due or under way, and
      the page goes on loading. */
  lemma StuckLoading(q: Ref, y: Ref, months: seq<Month>)
    requires q != y
    ensures var es := [Listed([q, y]), Click(y), Click(q)]
                      + ([Respond(2, Items(months)), Respond(1, Items(months)), OtherRefusal(y)]
                         + [Listed([q]), Commit]);
            && Legal(START, es)
            && var w := Run(START, es);
            && w.screen == Loading && w.page.active == w.committed == Some(q) && q in w.page.workspaces
            && !w.effectDue && w.inFlight == {} && w.listings == 0
            && w.asked == [y, q] && w.answers == map[2 := Items(months), 1 := Items(months)]
            && Cleared(START, es, false)
  {
    var es1 := [Listed([q, y]), Click(y), Click(q)];
    var es2 := [Respond(2, Items(months)), Respond(1, Items(months)), OtherRefusal(y)];
    var es3 := [Listed([q]), Commit];
    AskBoth(q, y);
    LoseFirst(q, y, months);
    ListedBack(q, y, Items(months));
    RunOfBoth(BothAsked(q, y), es2, es3);
    RunOfBoth(START, es1, es2 + es3);
    LatestIsDrawn(es1 + (es2 + es3));
  }
}
