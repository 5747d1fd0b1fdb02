/**
  The preview of unsaved changes: asked for after a pause, answered out of order or not at all, and shown
  only when it answers the latest request.
 */
module PreviewDraft {
  import opened Wrappers

  /** The proposal as the text that is compared and sent. */
  type Proposal = string

  /** What the server answered, and the proposal it answered. */
  datatype Answer = Answer(to: Proposal, content: string)

  /** The page's side. A request in flight is its token and the body it carries; `latest` is the body the
      current token was sent with. A timer that was cleared at unmount is still set but no longer armed. */
  datatype State = State(
    proposal: Proposal,
    preview: Option<Answer>,
    previewing: bool,
    previewError: Option<string>,
    active: bool,
    timer: bool,
    armed: bool,
    token: nat,
    inFlight: map<nat, Proposal>,
    latest: Option<Proposal>,
    mounted: bool)

  /** A choice that leaves the proposal's text as it was is an edit to the same proposal. */
  datatype Event =
    | Edit(proposal: Proposal)
    | SetActive(on: bool)
    | Refresh
    | SaveEnds
    | TimerFires
    | Answers(token: nat, content: string)
    | Fails(token: nat, error: string)
    | Unmount

  function Start(p: Proposal): State
  {
    State(p, None, false, None, false, false, false, 0, map[], None, true)
  }

  /** The timer can fire while armed, a reply comes to a request in flight, and a page unmounts once. */
  predicate Enabled(s: State, e: Event)
  {
    match e
    case TimerFires => s.armed
    case Answers(t, _) => t in s.inFlight
    case Fails(t, _) => t in s.inFlight
    case Unmount => s.mounted
    case _ => true
  }

  function Asked(s: State): State
  {
    s.(previewing := true, timer := true, armed := true)
  }

  function Arrived(s: State, t: nat): State
  {
    s.(inFlight := s.inFlight - {t})
  }

  function Step(s: State, e: Event): State
    requires Enabled(s, e)
  {
    match e
    case Edit(p) =>
      var s' := s.(proposal := p);
      if s.mounted && s.active && p != s.proposal then Asked(s') else s'
    case SetActive(on) =>
      var s' := s.(active := on);
      if s.mounted && on && !s.active then Asked(s') else s'
    case Refresh => Asked(s)
    case SaveEnds => if s.active then Asked(s) else s
    case TimerFires =>
      s.(timer := false, armed := false, token := s.token + 1,
        inFlight := s.inFlight[s.token + 1 := s.proposal], latest := Some(s.proposal))
    case Answers(t, content) =>
      if t != s.token then Arrived(s, t)
      else Arrived(s, t).(preview := Some(Answer(s.inFlight[t], content)), previewError := None,
        previewing := s.previewing && s.timer)
    case Fails(t, error) =>
      if t != s.token then Arrived(s, t)
      else Arrived(s, t).(previewError := Some(error), previewing := s.previewing && s.timer)
    case Unmount => s.(armed := s.armed && !s.timer, token := s.token + 1, latest := None, mounted := false)
  }

  predicate Happens(s: State, es: seq<Event>)
    decreases |es|
  {
    es == [] || (Enabled(s, es[0]) && Happens(Step(s, es[0]), es[1..]))
  }

  function After(s: State, es: seq<Event>): State
    requires Happens(s, es)
    decreases |es|
  {
    if es == [] then s else After(Step(s, es[0]), es[1..])
  }

  // ------------------------------------------------------------------ the page itself

  class Page {
    var proposal: Proposal
    var preview: Option<Answer>
    var previewing: bool
    var previewError: Option<string>
    var active: bool
    var timer: bool
    var armed: bool
    var seqNo: nat
    var inFlight: map<nat, Proposal>
    var mounted: bool
    ghost var latest: Option<Proposal>

    ghost function View(): State
      reads this
    {
      State(proposal, preview, previewing, previewError, active, timer, armed, seqNo, inFlight, latest, mounted)
    }

    constructor (p: Proposal)
      ensures View() == Start(p)
    {
      proposal, preview, previewing, previewError := p, None, false, None;
      active, timer, armed, seqNo, inFlight, mounted, latest := false, false, false, 0, map[], true, None;
    }

    method RequestPreview()
      modifies this
      ensures View() == Asked(old(View()))
    {
      if timer { armed := false; }
      previewing := true;
      timer, armed := true, true;
    }

    method Edit(p: Proposal)
      modifies this
      ensures View() == Step(old(View()), Event.Edit(p))
    {
      var changed := p != proposal;
      proposal := p;
      if mounted && changed && active { RequestPreview(); }
    }

    method SetActive(on: bool)
      modifies this
      ensures View() == Step(old(View()), Event.SetActive(on))
    {
      var changed := on != active;
      active := on;
      if mounted && changed && on { RequestPreview(); }
    }

    method RefreshPreview()
      modifies this
      ensures View() == Step(old(View()), Refresh)
    {
      RequestPreview();
    }

    method SaveEnded()
      modifies this
      ensures View() == Step(old(View()), SaveEnds)
    {
      if active { RequestPreview(); }
    }

    /** The timer's callback up to the request it sends. */
    method TimerFired() returns (token: nat)
      requires armed
      modifies this
      ensures View() == Step(old(View()), TimerFires) && token == seqNo
    {
      timer, armed := false, false;
      seqNo := seqNo + 1;
      token := seqNo;
      inFlight := inFlight[token := proposal];
      latest := Some(proposal);
    }

    /** The rest of the callback, once the request has an answer or has failed. */
    method Replied(token: nat, content: Option<string>, error: string)
      requires token in inFlight
      modifies this
      ensures View() == Step(old(View()), if content.Some? then Answers(token, content.value) else Fails(token, error))
    {
      var body := inFlight[token];
      inFlight := inFlight - {token};
      if token == seqNo {
        if content.Some? {
          preview := Some(Answer(body, content.value));
          previewError := None;
        } else {
          previewError := Some(error);
        }
      }
      if token == seqNo && !timer { previewing := false; }
    }

    method Unmounted()
      requires mounted
      modifies this
      ensures View() == Step(old(View()), Unmount)
    {
      if timer { armed := false; }
      seqNo := seqNo + 1;
      mounted, latest := false, None;
    }
  }

  // ------------------------------------------------------------------ what every run keeps

  ghost predicate Inv(s: State)
  {
    && (forall t :: t in s.inFlight ==> t <= s.token)
    && (s.armed ==> s.timer)
    && (s.latest.Some? && s.token in s.inFlight ==> s.inFlight[s.token] == s.latest.value)
    && (s.latest.None? ==> s.token !in s.inFlight)
    && (s.mounted ==> MountedInv(s))
  }

  ghost predicate MountedInv(s: State)
  {
    && s.timer == s.armed
    && (s.previewing <==> s.timer || s.token in s.inFlight)
    && (s.active && !s.timer ==> s.latest == Some(s.proposal))
    && (s.latest.Some? && s.token !in s.inFlight && s.previewError.None? ==>
        s.preview.Some? && s.preview.value.to == s.latest.value)
  }

  lemma StepKeeps(s: State, e: Event)
    requires Inv(s) && Enabled(s, e)
    ensures Inv(Step(s, e))
  {
    if e.Answers? || e.Fails? { ReplyKeeps(s, e); }
  }

  lemma ReplyKeeps(s: State, e: Event)
    requires Inv(s) && Enabled(s, e) && (e.Answers? || e.Fails?)
    ensures Inv(Step(s, e))
  {
    if e.token == s.token { assert e.token !in Step(s, e).inFlight; }
  }

  lemma {:induction false} RunKeeps(s: State, es: seq<Event>)
    requires Inv(s) && Happens(s, es)
    ensures Inv(After(s, es))
    decreases |es|
  {
    if es != [] {
      StepKeeps(s, es[0]);
      RunKeeps(Step(s, es[0]), es[1..]);
    }
  }

  // ------------------------------------------------------------------ what is shown came from the server

  lemma {:induction false} OneMore(s: State, es: seq<Event>, e: Event)
    ensures Happens(s, es + [e]) <==> Happens(s, es) && Enabled(After(s, es), e)
    ensures Happens(s, es + [e]) ==> After(s, es + [e]) == Step(After(s, es), e)
    decreases |es|
  {
    var all := es + [e];
    if es == [] {
      assert all == [e] && all[1..] == [];
      assert Enabled(s, e) ==> Happens(Step(s, e), []) && After(Step(s, e), []) == Step(s, e);
    } else {
      assert all[0] == es[0] && all[1..] == es[1..] + [e];
      if Enabled(s, es[0]) { OneMore(Step(s, es[0]), es[1..], e); }
    }
  }

  /** At event j the timer fires, and the request with this token goes out with the proposal of that moment. */
  ghost predicate Sends(p: Proposal, es: seq<Event>, j: nat, token: nat, body: Proposal)
  {
    && j < |es| && es[j].TimerFires?
    && Happens(Start(p), es[..j]) && After(Start(p), es[..j]).token + 1 == token && After(Start(p), es[..j]).proposal == body
  }

  predicate Happened(es: seq<Event>, k: nat, e: Event) { k < |es| && es[k] == e }

  ghost predicate Sent(p: Proposal, es: seq<Event>, token: nat, body: Proposal)
  {
    exists j: nat :: Sends(p, es, j, token, body)
  }

  /** The request with this token went out with this body, and later this became of it. */
  ghost predicate CameBack(p: Proposal, es: seq<Event>, token: nat, body: Proposal, e: Event)
  {
    exists j: nat, k: nat :: j < k && Sends(p, es, j, token, body) && Happened(es, k, e)
  }

  ghost predicate Shows(p: Proposal, es: seq<Event>, token: nat, a: Answer)
  {
    CameBack(p, es, token, a.to, Answers(token, a.content))
  }

  /** The requests out, the request the current token belongs to, and what came back of it; and whatever
      is shown was answered to a request of this run. */
  ghost predicate Accounted(p: Proposal, es: seq<Event>, s: State)
  {
    && (forall t :: t in s.inFlight ==> Sent(p, es, t, s.inFlight[t]))
    && (s.latest.Some? ==> Sent(p, es, s.token, s.latest.value))
    && (s.latest.Some? && s.token !in s.inFlight ==> Resolved(p, es, s))
    && (s.preview.Some? ==> exists t :: Shows(p, es, t, s.preview.value))
  }

  ghost predicate Resolved(p: Proposal, es: seq<Event>, s: State)
  {
    && s.latest.Some?
    && match s.previewError
       case None => s.preview.Some? && s.preview.value.to == s.latest.value && Shows(p, es, s.token, s.preview.value)
       case Some(error) => CameBack(p, es, s.token, s.latest.value, Fails(s.token, error))
  }

  lemma SentLater(p: Proposal, es: seq<Event>, e: Event, token: nat, body: Proposal)
    requires Sent(p, es, token, body)
    ensures Sent(p, es + [e], token, body)
  {
    var j: nat :| Sends(p, es, j, token, body);
    assert (es + [e])[..j] == es[..j];
    assert Sends(p, es + [e], j, token, body);
  }

  lemma CameBackLater(p: Proposal, es: seq<Event>, e: Event, token: nat, body: Proposal, was: Event)
    requires CameBack(p, es, token, body, was)
    ensures CameBack(p, es + [e], token, body, was)
  {
    var j: nat, k: nat :| j < k && Sends(p, es, j, token, body) && Happened(es, k, was);
    assert (es + [e])[..j] == es[..j];
    assert Sends(p, es + [e], j, token, body) && Happened(es + [e], k, was);
  }

  lemma ComesBack(p: Proposal, es: seq<Event>, e: Event, token: nat, body: Proposal)
    requires Sent(p, es, token, body)
    ensures CameBack(p, es + [e], token, body, e)
  {
    var j: nat :| Sends(p, es, j, token, body);
    assert (es + [e])[..j] == es[..j];
    assert Sends(p, es + [e], j, token, body) && Happened(es + [e], |es|, e);
  }

  /** One more event takes nothing back. */
  lemma AccountedLater(p: Proposal, es: seq<Event>, e: Event, s: State)
    requires Accounted(p, es, s)
    ensures Accounted(p, es + [e], s)
  {
    forall t | t in s.inFlight ensures Sent(p, es + [e], t, s.inFlight[t]) { SentLater(p, es, e, t, s.inFlight[t]); }
    if s.latest.Some? { SentLater(p, es, e, s.token, s.latest.value); }
    if s.latest.Some? && s.token !in s.inFlight { ResolvedLater(p, es, e, s); }
    if s.preview.Some? {
      var t :| Shows(p, es, t, s.preview.value);
      CameBackLater(p, es, e, t, s.preview.value.to, Answers(t, s.preview.value.content));
      assert Shows(p, es + [e], t, s.preview.value);
    }
  }

  lemma ResolvedLater(p: Proposal, es: seq<Event>, e: Event, s: State)
    requires Resolved(p, es, s)
    ensures Resolved(p, es + [e], s)
  {
    var was := if s.previewError.Some? then Fails(s.token, s.previewError.value) else Answers(s.token, s.preview.value.content);
    CameBackLater(p, es, e, s.token, s.latest.value, was);
  }

  lemma FiringSends(p: Proposal, es: seq<Event>, s: State)
    requires Happens(Start(p), es) && s == After(Start(p), es)
    ensures Sent(p, es + [TimerFires], s.token + 1, s.proposal)
  {
    assert (es + [TimerFires])[..|es|] == es;
    assert Sends(p, es + [TimerFires], |es|, s.token + 1, s.proposal);
  }

  lemma FiringAccounted(p: Proposal, es: seq<Event>, s: State)
    requires Accounted(p, es, s) && s.armed && Sent(p, es, s.token + 1, s.proposal)
    ensures Accounted(p, es, Step(s, TimerFires))
  {
  }

  /** A reply to an older request changes nothing that is shown. */
  lemma LateReply(p: Proposal, es: seq<Event>, s: State, t: nat)
    requires Accounted(p, es, s) && t != s.token
    ensures Accounted(p, es, Arrived(s, t))
  {
  }

  lemma AnswerAccounted(p: Proposal, es: seq<Event>, s: State, s': State, content: string)
    requires Accounted(p, es, s) && s.token in s.inFlight && s' == Step(s, Answers(s.token, content))
    requires s.latest == Some(s.inFlight[s.token])
    requires CameBack(p, es, s.token, s.latest.value, Answers(s.token, content))
    ensures Accounted(p, es, s')
  {
    assert s'.latest == s.latest && s'.token == s.token && s'.preview == Some(Answer(s.latest.value, content));
    assert Shows(p, es, s'.token, s'.preview.value);
    assert Resolved(p, es, s');
  }

  lemma FailureAccounted(p: Proposal, es: seq<Event>, s: State, s': State, error: string)
    requires Accounted(p, es, s) && s.token in s.inFlight && s' == Step(s, Fails(s.token, error))
    requires s.latest == Some(s.inFlight[s.token])
    requires CameBack(p, es, s.token, s.latest.value, Fails(s.token, error))
    ensures Accounted(p, es, s')
  {
    assert s'.latest == s.latest && s'.token == s.token && s'.previewError == Some(error);
    assert Resolved(p, es, s');
  }

  lemma ReplyAccounted(p: Proposal, es: seq<Event>, e: Event, s: State)
    requires (e.Answers? || e.Fails?) && Enabled(s, e) && Inv(s) && Accounted(p, es, s)
    ensures Accounted(p, es + [e], Step(s, e))
  {
    AccountedLater(p, es, e, s);
    if e.token != s.token {
      LateReply(p, es + [e], s, e.token);
    } else {
      ComesBack(p, es, e, e.token, s.inFlight[e.token]);
      if e.Answers? { AnswerAccounted(p, es + [e], s, Step(s, e), e.content); }
      else { FailureAccounted(p, es + [e], s, Step(s, e), e.error); }
    }
  }

  /** Nothing the account is about has changed. */
  predicate Quiet(s: State, s': State)
  {
    && s'.inFlight == s.inFlight && s'.preview == s.preview
    && (s'.latest.None? || (s'.latest == s.latest && s'.token == s.token && s'.previewError == s.previewError))
  }

  lemma QuietStep(s: State, e: Event)
    requires Enabled(s, e) && !e.TimerFires? && !e.Answers? && !e.Fails?
    ensures Quiet(s, Step(s, e))
  {
  }

  lemma QuietAccounted(p: Proposal, es: seq<Event>, s: State, s': State)
    requires Accounted(p, es, s) && Quiet(s, s')
    ensures Accounted(p, es, s')
  {
  }

  lemma EventAccounted(p: Proposal, es: seq<Event>, e: Event, s: State)
    requires Happens(Start(p), es) && s == After(Start(p), es) && Enabled(s, e) && Inv(s) && Accounted(p, es, s)
    ensures Accounted(p, es + [e], Step(s, e))
  {
    AccountedLater(p, es, e, s);
    if e.TimerFires? {
      FiringSends(p, es, s);
      FiringAccounted(p, es + [e], s);
    } else if e.Answers? || e.Fails? {
      ReplyAccounted(p, es, e, s);
    } else {
      QuietStep(s, e);
      QuietAccounted(p, es + [e], s, Step(s, e));
    }
  }

  lemma {:induction false} RunAccounted(p: Proposal, es: seq<Event>)
    requires Happens(Start(p), es)
    ensures Accounted(p, es, After(Start(p), es))
    decreases |es|
  {
    if es != [] {
      var n := |es| - 1;
      var init := es[..n];
      assert es == init + [es[n]];
      OneMore(Start(p), init, es[n]);
      RunAccounted(p, init);
      RunKeeps(Start(p), init);
      EventAccounted(p, init, es[n], After(Start(p), init));
    }
  }

  /** In every run: what is shown is the content that some request of the run was answered with, and it is
      labelled with the proposal that request carried. A mounted page says it is previewing exactly while a
      request is due or the latest one is out. When it is active and not previewing, the latest request
      went out with the proposal as it now reads, and the page shows what came back of that request: the
      content it was answered with, or the error it failed with. */
  lemma PreviewIsFresh(p: Proposal, es: seq<Event>)
    requires Happens(Start(p), es)
    ensures var s := After(Start(p), es);
      && (s.preview.Some? ==> exists t :: Shows(p, es, t, s.preview.value))
      && (s.mounted ==> (s.previewing <==> s.armed || s.token in s.inFlight))
      && (s.mounted && s.active && !s.previewing ==> ShowsLatest(p, es, s))
  {
    RunKeeps(Start(p), es);
    RunAccounted(p, es);
  }

  ghost predicate ShowsLatest(p: Proposal, es: seq<Event>, s: State)
  {
    match s.previewError
    case Some(error) => CameBack(p, es, s.token, s.proposal, Fails(s.token, error))
    case None => s.preview.Some? && CameBack(p, es, s.token, s.proposal, Answers(s.token, s.preview.value.content))
  }

  /** What asks for a new preview: a refresh, a save that ends on an active page, opening a step, or a choice
      that changes the proposal of an active page. */
  predicate Asks(s: State, e: Event)
  {
    match e
    case Refresh => true
    case SaveEnds => s.active
    case SetActive(on) => s.mounted && on && !s.active
    case Edit(q) => s.mounted && s.active && q != s.proposal
    case _ => false
  }

  lemma {:induction false} Prefix(p: Proposal, es: seq<Event>, n: nat)
    requires Happens(Start(p), es) && n <= |es|
    ensures Happens(Start(p), es[..n])
    ensures n < |es| ==> Enabled(After(Start(p), es[..n]), es[n]) && Happens(Start(p), es[..n + 1])
    ensures n < |es| ==> After(Start(p), es[..n + 1]) == Step(After(Start(p), es[..n]), es[n])
    decreases |es| - n
  {
    if n == |es| {
      assert es[..n] == es;
    } else {
      Prefix(p, es, n + 1);
      assert es[..n + 1] == es[..n] + [es[n]];
      OneMore(Start(p), es[..n], es[n]);
    }
  }

  /** Tokens only grow, and a timer that was set and is not has given one out. */
  predicate Later(s: State, s': State) { s.token <= s'.token && (s.timer && !s'.timer ==> s.token < s'.token) }

  lemma StepIsLater(s: State, e: Event)
    requires Enabled(s, e)
    ensures Later(s, Step(s, e))
  {
  }

  lemma {:induction false} TokensGrow(p: Proposal, es: seq<Event>, j: nat, n: nat)
    requires Happens(Start(p), es) && j <= n <= |es|
    ensures Happens(Start(p), es[..j]) && Happens(Start(p), es[..n])
    ensures Later(After(Start(p), es[..j]), After(Start(p), es[..n]))
    decreases n
  {
    Prefix(p, es, j);
    if j < n {
      TokensGrow(p, es, j, n - 1);
      Prefix(p, es, n - 1);
      StepIsLater(After(Start(p), es[..n - 1]), es[n - 1]);
    }
  }

  /** A mounted, active page that is not previewing shows what came back of a request that went out after
      whatever last asked for a preview: no reply to an earlier request is left standing. */
  lemma AskedIsAnswered(p: Proposal, es: seq<Event>, m: nat) returns (j: nat, k: nat)
    requires Happens(Start(p), es) && m < |es| && Happens(Start(p), es[..m]) && Asks(After(Start(p), es[..m]), es[m])
    requires var s := After(Start(p), es); s.mounted && s.active && !s.previewing
    ensures var s := After(Start(p), es);
      && m < j < k && Sends(p, es, j, s.token, s.proposal)
      && (s.previewError.None? ==> s.preview.Some? && Happened(es, k, Answers(s.token, s.preview.value.content)))
      && (s.previewError.Some? ==> Happened(es, k, Fails(s.token, s.previewError.value)))
  {
    var s := After(Start(p), es);
    RunKeeps(Start(p), es);
    PreviewIsFresh(p, es);
    var e := if s.previewError.Some? then Fails(s.token, s.previewError.value) else Answers(s.token, s.preview.value.content);
    assert CameBack(p, es, s.token, s.proposal, e);
    j, k :| j < k && Sends(p, es, j, s.token, s.proposal) && Happened(es, k, e);
    SentSince(p, es, m, j);
  }

  lemma SentSince(p: Proposal, es: seq<Event>, m: nat, j: nat)
    requires Happens(Start(p), es) && m < |es| && Happens(Start(p), es[..m]) && Asks(After(Start(p), es[..m]), es[m])
    requires !After(Start(p), es).timer && Sends(p, es, j, After(Start(p), es).token, After(Start(p), es).proposal)
    ensures m < j
  {
    assert es[..|es|] == es;
    Prefix(p, es, m);
    TokensGrow(p, es, m + 1, |es|);
    if j < m {
      Prefix(p, es, j);
      TokensGrow(p, es, j + 1, m + 1);
    }
  }

  lemma Two(s: State, a: Event, b: Event)
    requires Enabled(s, a) && Enabled(Step(s, a), b)
    ensures Happens(s, [a, b]) && After(s, [a, b]) == Step(Step(s, a), b)
  {
    var t := Step(s, a);
    assert [a, b][1..] == [b] && [b][1..] == [];
    assert Happens(Step(t, b), []) && After(Step(t, b), []) == Step(t, b);
    assert Happens(t, [b]) && After(t, [b]) == Step(t, b);
  }

  /** A mounted page that is previewing is settled by at most one firing of its timer and one answer,
      whatever happened before: nothing else has to be asked for, and a failure is cleared. */
  lemma CanSettle(p: Proposal, es: seq<Event>, content: string) returns (more: seq<Event>)
    requires Happens(Start(p), es) && After(Start(p), es).mounted && After(Start(p), es).previewing
    ensures |more| <= 2 && Happens(After(Start(p), es), more)
    ensures forall i :: 0 <= i < |more| ==> more[i].TimerFires? || more[i] == Answers(After(After(Start(p), es), more).token, content)
    ensures var was := After(Start(p), es); var s := After(was, more);
      && !s.previewing && s.previewError.None? && s.preview.Some? && s.preview.value.content == content
      && (was.active ==> s.preview.value.to == was.proposal)
  {
    RunKeeps(Start(p), es);
    var s := After(Start(p), es);
    if s.timer {
      var landed := Answers(Step(s, TimerFires).token, content);
      Two(s, TimerFires, landed);
      more := [TimerFires, landed];
    } else {
      var landed := Answers(s.token, content);
      var s' := Step(s, landed);
      assert [landed][1..] == [];
      assert Happens(s', []) && After(s', []) == s';
      more := [landed];
    }
  }

  /** A choice made on a mounted page shows as previewing exactly when the page was previewing already, or
      is active and the proposal's text changes with the choice. One made on a page that is not active is
      picked up only when a step is opened again. */
  lemma EditShowsIff(p: Proposal, es: seq<Event>, q: Proposal)
    requires Happens(Start(p), es) && After(Start(p), es).mounted
    ensures var s := After(Start(p), es);
      && (Step(s, Edit(q)).previewing <==> s.previewing || (s.active && q != s.proposal))
      && (!s.active ==> Step(Step(s, Edit(q)), SetActive(true)).armed)
  {
  }

  /** Both ways not to show: a changed proposal before any step is open, and, with a step open and its
      preview answered, a choice that leaves the proposal as it was. */
  lemma EditsThatDoNotShow(p: Proposal, q: Proposal, content: string)
    requires p != q
    ensures !Step(Start(p), Edit(q)).previewing
    ensures var shown := [SetActive(true), TimerFires];
      Happens(Start(p), shown) && var s := Step(After(Start(p), shown), Answers(1, content));
      s.active && !Step(s, Edit(p)).previewing
  {
    Two(Start(p), SetActive(true), TimerFires);
  }

  predicate AsksAgain(e: Event) { e.Refresh? || e.SaveEnds? }

  lemma {:induction false} KeptAfterUnmount(s: State, es: seq<Event>)
    requires Inv(s) && !s.mounted && !s.armed && s.latest.None? && Happens(s, es)
    requires forall i :: 0 <= i < |es| ==> !AsksAgain(es[i])
    ensures After(s, es).preview == s.preview && After(s, es).previewError == s.previewError
    decreases |es|
  {
    if es != [] {
      StepKeeps(s, es[0]);
      var s' := Step(s, es[0]);
      assert !AsksAgain(es[0]);
      assert forall i :: 0 <= i < |es[1..]| ==> es[1..][i] == es[i + 1];
      KeptAfterUnmount(s', es[1..]);
    }
  }

  /** Once the page is gone nothing lands on it, unless something asks again. */
  lemma NothingLandsAfterUnmount(p: Proposal, before: seq<Event>, es: seq<Event>)
    requires Happens(Start(p), before) && After(Start(p), before).mounted
    requires Happens(Step(After(Start(p), before), Unmount), es) && forall i :: 0 <= i < |es| ==> !AsksAgain(es[i])
    ensures var s := After(Start(p), before); var s' := After(Step(s, Unmount), es);
      s'.preview == s.preview && s'.previewError == s.previewError
  {
    RunKeeps(Start(p), before);
    StepKeeps(After(Start(p), before), Unmount);
    KeptAfterUnmount(Step(After(Start(p), before), Unmount), es);
  }
}
