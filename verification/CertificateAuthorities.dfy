/** Certificate authorities: which revocation list fields are planned and sent, and whether an
    applied configuration stays applied. */
module CertificateAuthorities {
  import opened Wrappers

  /** What the backend reports as URL when the list was uploaded. */
  const PLACEHOLDER := "Local file uploaded"

  datatype Authority = Authority(
    displayName: string, description: string, certificateChain: string, certificateChainFilename: string,
    requireCrl: bool, crlUrl: string, crlChain: string, crlSource: string, crlUpdatedAt: string)

  /** A configuration; an unset URL is the empty one, and so is an unset chain. */
  datatype Config = Config(
    displayName: string, description: string, certificateChain: string, certificateChainFilename: string,
    requireCrl: bool, crlUrl: string, crlChain: string)

  /** A planned value: known, or known after apply. */
  datatype Planned = Known(value: string) | Unknown

  function Get(p: Planned): string {
    if p.Known? then p.value else ""
  }

  datatype Plan = Plan(
    displayName: string, description: string, certificateChain: string, certificateChainFilename: string,
    requireCrl: bool, crlUrl: Planned, crlChain: string, crlSource: Planned, crlUpdatedAt: Planned)

  // ---- Planning ----

  /** A difference between the placeholder and an empty URL is none. */
  predicate SuppressUrlDiff(oldValue: string, newValue: string) {
    oldValue == PLACEHOLDER && newValue == ""
  }

  /** Terraform's own part: configured values, and the prior one for a computed attribute that is
      unset or set to the empty string, or whose difference is suppressed. */
  function BasePlan(state: Authority, c: Config): Plan {
    var kept := c.crlUrl == "" || SuppressUrlDiff(state.crlUrl, c.crlUrl);
    Plan(c.displayName, c.description, c.certificateChain, c.certificateChainFilename, c.requireCrl,
         Known(if kept then state.crlUrl else c.crlUrl),
         c.crlChain, Known(state.crlSource), Known(state.crlUpdatedAt))
  }

  /** Anything that makes the backend load a revocation list anew. */
  predicate TriggersCrlUpdate(state: Authority, p: Plan) {
    || p.requireCrl != state.requireCrl
    || p.certificateChain != state.certificateChain
    || p.crlChain != state.crlChain
    || p.crlUrl != Known(state.crlUrl)
  }

  function Customized(state: Authority, p: Plan): Plan {
    if !TriggersCrlUpdate(state, p) then p
    else if p.requireCrl then
      p.(crlSource := Unknown, crlUpdatedAt := Unknown, crlUrl := if Get(p.crlUrl) == "" then Unknown else p.crlUrl)
    else p.(crlSource := Known(""), crlUrl := Known(""))
  }

  function PlanFor(state: Authority, c: Config): Plan {
    Customized(state, BasePlan(state, c))
  }

  /** The plan that changes nothing. */
  function NoChange(state: Authority): Plan {
    Plan(state.displayName, state.description, state.certificateChain, state.certificateChainFilename,
         state.requireCrl, Known(state.crlUrl), state.crlChain, Known(state.crlSource), Known(state.crlUpdatedAt))
  }

  // ---- Requests and answers ----

  datatype Request = Request(
    displayName: string, description: string, certificateChain: string, certificateChainFilename: string,
    requireCrl: bool, crlUrl: Option<string>, crlChain: Option<string>)

  /** What a read brings back; neither chain is among it. */
  datatype Answer = Answer(displayName: string, description: string, certificateChainFilename: string,
                           requireCrl: bool, crlUrl: string, crlSource: string, crlUpdatedAt: string)

  function RequestOf(p: Plan): Request {
    Request(p.displayName, p.description, p.certificateChain, p.certificateChainFilename, p.requireCrl,
            if p.requireCrl && Get(p.crlUrl) !in {"", PLACEHOLDER} then Some(Get(p.crlUrl)) else None,
            if p.requireCrl && p.crlChain != "" then Some(p.crlChain) else None)
  }

  function Applied(p: Plan): Authority {
    Authority(p.displayName, p.description, p.certificateChain, p.certificateChainFilename, p.requireCrl,
              Get(p.crlUrl), p.crlChain, Get(p.crlSource), Get(p.crlUpdatedAt))
  }

  function ReadInto(state: Authority, a: Answer): Authority {
    state.(displayName := a.displayName, description := a.description,
           certificateChainFilename := a.certificateChainFilename, requireCrl := a.requireCrl,
           crlUrl := a.crlUrl, crlSource := a.crlSource, crlUpdatedAt := a.crlUpdatedAt)
  }

  // ---- The provider ----

  /** The difference between state and configuration while it is being customized. */
  class ResourceDiff {
    const state: Authority
    var next: Plan

    constructor (state: Authority, next: Plan)
      ensures this.state == state && this.next == next
    {
      this.state := state;
      this.next := next;
    }

    method Customize()
      modifies this
      ensures next == Customized(state, old(next))
    {
      var triggers := next.requireCrl != state.requireCrl || next.certificateChain != state.certificateChain
                      || next.crlChain != state.crlChain || next.crlUrl != Known(state.crlUrl);
      if !triggers {
        return;
      }
      if next.requireCrl {
        next := next.(crlSource := Unknown);
        next := next.(crlUpdatedAt := Unknown);
        if Get(next.crlUrl) == "" {
          next := next.(crlUrl := Unknown);
        }
        return;
      }
      next := next.(crlSource := Known(""));
      next := next.(crlUrl := Known(""));
    }
  }

  class Provider {
    var d: Authority
    ghost var sent: seq<Request>

    constructor (d: Authority)
      ensures this.d == d && sent == []
    {
      this.d := d;
      sent := [];
    }

    method Read(answer: Option<Answer>) returns (ok: bool)
      modifies this`d
      ensures ok <==> answer.Some?
      ensures d == if answer.Some? then ReadInto(old(d), answer.value) else old(d)
    {
      if answer.None? {
        return false;
      }
      var a := answer.value;
      d := d.(displayName := a.displayName);
      d := d.(description := a.description);
      d := d.(certificateChainFilename := a.certificateChainFilename);
      d := d.(crlSource := a.crlSource);
      d := d.(crlUrl := a.crlUrl);
      d := d.(crlUpdatedAt := a.crlUpdatedAt);
      d := d.(requireCrl := a.requireCrl);
      return true;
    }

    /** Create and update build their requests alike. */
    method Apply(p: Plan, accepted: bool, answer: Option<Answer>) returns (ok: bool)
      modifies this
      ensures sent == old(sent) + [RequestOf(p)]
      ensures ok <==> accepted && answer.Some?
      ensures d == if ok then ReadInto(Applied(p), answer.value) else Applied(p)
    {
      d := Applied(p);
      var request := Request(d.displayName, d.description, d.certificateChain, d.certificateChainFilename,
                             d.requireCrl, None, None);
      if d.requireCrl {
        if d.crlUrl != "" && d.crlUrl != PLACEHOLDER {
          request := request.(crlUrl := Some(d.crlUrl));
        }
        if d.crlChain != "" {
          request := request.(crlChain := Some(d.crlChain));
        }
      }
      sent := sent + [request];
      if !accepted {
        return false;
      }
      ok := Read(answer);
    }
  }

  // ---- Runs ----

  /** The state, and the requests the backend has accepted so far. */
  datatype World = World(state: Authority, accepted: seq<Request>)

  datatype Event =
    | Refresh(answer: Option<Answer>)
    | Change(c: Config, accepted: bool, answer: Option<Answer>)

  function SentBy(w: World, e: Event): Option<Request> {
    match e
    case Refresh(_) => None
    case Change(c, _, _) => Some(RequestOf(PlanFor(w.state, c)))
  }

  /** What the backend has accepted by the time it answers. */
  function AcceptedBy(w: World, e: Event): seq<Request> {
    if e.Change? && e.accepted then w.accepted + [SentBy(w, e).value] else w.accepted
  }

  function StepOf(w: World, e: Event): World {
    var state :=
      match e
      case Refresh(answer) => if answer.Some? then ReadInto(w.state, answer.value) else w.state
      case Change(c, accepted, answer) =>
        var p := PlanFor(w.state, c);
        if accepted && answer.Some? then ReadInto(Applied(p), answer.value) else Applied(p);
    World(state, AcceptedBy(w, e))
  }

  /** The request each event of a run sends, if any. */
  function Sent(w: World, events: seq<Event>): (sent: seq<Option<Request>>)
    ensures |sent| == |events|
    decreases |events|
  {
    if events == [] then []
    else [SentBy(w, events[0])] + Sent(StepOf(w, events[0]), events[1..])
  }

  /** The URLs of accepted requests. */
  function UrlsOf(requests: seq<Request>): set<string> {
    set r | r in requests && r.crlUrl.Some? :: r.crlUrl.value
  }

  /** The backend reports no URL, the placeholder, or a URL of some request it accepted, however old. */
  predicate Honest(a: Answer, accepted: seq<Request>) {
    a.crlUrl in {"", PLACEHOLDER} + UrlsOf(accepted)
  }

  predicate HonestRun(w: World, events: seq<Event>)
    decreases |events|
  {
    events != [] ==>
      && (events[0].answer.Some? ==> Honest(events[0].answer.value, AcceptedBy(w, events[0])))
      && HonestRun(StepOf(w, events[0]), events[1..])
  }

  /** The URLs configured by the changes among some events. */
  function Configured(events: seq<Event>): set<string> {
    set e | e in events && e.Change? :: e.c.crlUrl
  }

  /** The URLs a run starts from. */
  function Standing(w: World): set<string> {
    {w.state.crlUrl} + UrlsOf(w.accepted)
  }

  predicate Clean(r: Request) {
    && (!r.requireCrl ==> r.crlUrl.None? && r.crlChain.None?)
    && r.crlUrl != Some(PLACEHOLDER) && r.crlUrl != Some("") && r.crlChain != Some("")
  }

  /** A clean request whose URL, if any, is among these. */
  predicate Accounted(r: Request, urls: set<string>) {
    Clean(r) && (r.crlUrl.Some? ==> r.crlUrl.value in urls)
  }

  lemma AccountedWithin(r: Request, urls: set<string>, more: set<string>)
    requires Accounted(r, urls) && urls <= more + {"", PLACEHOLDER}
    ensures Accounted(r, more)
  {
  }

  lemma StandingAfter(w: World, e: Event)
    requires e.answer.Some? ==> Honest(e.answer.value, AcceptedBy(w, e))
    ensures Standing(StepOf(w, e)) <= Standing(w) + Configured([e]) + {"", PLACEHOLDER}
    ensures SentBy(w, e).Some? ==> Accounted(SentBy(w, e).value, Standing(w) + Configured([e]))
  {
    assert e in [e];
    if e.Change? {
      assert e.c.crlUrl in Configured([e]);
      UrlsOfOneMore(w.accepted, SentBy(w, e).value);
    }
  }

  lemma UrlsOfOneMore(requests: seq<Request>, r: Request)
    ensures UrlsOf(requests + [r]) == UrlsOf(requests) + UrlsOf([r])
  {
  }

  /** In every interleaving of read, plan and apply, with an honest backend that may fail at any step,
      no request carries the placeholder, an empty field, or a revocation list that is not required,
      though read-back puts the placeholder into the state; and every URL sent was configured by that
      change or an earlier one, or stood in the state or with the backend at the start. */
  lemma {:induction false} RequestsAreClean(w: World, events: seq<Event>)
    requires HonestRun(w, events)
    ensures forall i :: 0 <= i < |events| && Sent(w, events)[i].Some? ==>
              Accounted(Sent(w, events)[i].value, Standing(w) + Configured(events[..i + 1]))
    decreases |events|
  {
    if events != [] {
      hide StepOf, SentBy, AcceptedBy, Honest, Accounted, Standing, Configured;
      var e, w' := events[0], StepOf(w, events[0]);
      StandingAfter(w, e);
      RequestsAreClean(w', events[1..]);
      forall i | 0 <= i < |events| && Sent(w, events)[i].Some?
        ensures Accounted(Sent(w, events)[i].value, Standing(w) + Configured(events[..i + 1]))
      {
        ConfiguredOneMore(events, i);
        if i == 0 {
          assert events[..1] == [e];
        } else {
          var r := Sent(w', events[1..])[i - 1].value;
          AccountedWithin(r, Standing(w') + Configured(events[1..][..i]), Standing(w) + Configured(events[..i + 1]));
        }
      }
    }
  }

  lemma ConfiguredOneMore(events: seq<Event>, i: nat)
    requires i < |events|
    ensures Configured(events[..i + 1]) == Configured([events[0]]) + Configured(events[1..][..i])
  {
    assert events[..i + 1] == [events[0]] + events[1..][..i];
  }

  lemma ConfiguredBefore(events: seq<Event>, i: nat)
    requires i < |events|
    ensures Configured(events[..i + 1]) <= Configured(events)
  {
    assert forall e :: e in events[..i + 1] ==> e in events;
  }

  /** So a life without any URL in the configuration never sends one, whatever uploads come and go. */
  lemma NoUrlUnlessConfigured(w: World, events: seq<Event>)
    requires HonestRun(w, events)
    requires Standing(w) <= {"", PLACEHOLDER} && Configured(events) <= {""}
    ensures forall i :: 0 <= i < |events| && Sent(w, events)[i].Some? ==> Sent(w, events)[i].value.crlUrl.None?
  {
    RequestsAreClean(w, events);
    forall i | 0 <= i < |events| && Sent(w, events)[i].Some? ensures Sent(w, events)[i].value.crlUrl.None?
    {
      ConfiguredBefore(events, i);
    }
  }

  /** Exactly which URL a change sends: while lists are required, the configured one, and when none
      is configured, the one in the state, though the configuration may long have dropped it. */
  lemma SentUrl(state: Authority, c: Config, u: string)
    ensures RequestOf(PlanFor(state, c)).crlUrl == Some(u) <==>
            && c.requireCrl && u != "" && u != PLACEHOLDER
            && (c.crlUrl == u || (c.crlUrl == "" && state.crlUrl == u))
  {
  }

  /** What a change sends besides the URL is what is configured, the chain only while lists are required. */
  lemma RequestCarriesConfiguration(state: Authority, c: Config)
    ensures var r := RequestOf(PlanFor(state, c));
            && r.displayName == c.displayName && r.description == c.description
            && r.certificateChain == c.certificateChain && r.certificateChainFilename == c.certificateChainFilename
            && r.requireCrl == c.requireCrl
            && (forall chain :: r.crlChain == Some(chain) <==> c.requireCrl && chain == c.crlChain != "")
  {
  }

  /** A change after which the backend loads a list anew, or none any more. */
  predicate Reloads(state: Authority, c: Config) {
    || c.requireCrl != state.requireCrl || c.certificateChain != state.certificateChain
    || c.crlChain != state.crlChain || (c.crlUrl != "" && c.crlUrl != state.crlUrl)
  }

  /** What is known of the list before a change is applied: all as it is unless the list is loaded anew;
      then source and date are unknown, and the URL when there is none; and when no list is required
      any more, there is neither source nor URL. */
  lemma PlanOfList(state: Authority, c: Config)
    ensures var p := PlanFor(state, c);
            var url := if c.crlUrl != "" then c.crlUrl else state.crlUrl;
            (p.crlSource, p.crlUpdatedAt, p.crlUrl)
            == if !Reloads(state, c) then (Known(state.crlSource), Known(state.crlUpdatedAt), Known(state.crlUrl))
               else if !c.requireCrl then (Known(""), Known(state.crlUpdatedAt), Known(""))
               else (Unknown, Unknown, if url == "" then Unknown else Known(url))
  {
  }

  /** After a change is applied and read back, the state shows the answer, and the two chains, which no
      answer has, as configured; a refresh keeps the chains it finds. */
  lemma StateShowsAnswer(w: World, c: Config, a: Answer)
    ensures forall e :: e in {Change(c, true, Some(a)), Refresh(Some(a))} ==>
              var s := StepOf(w, e).state;
              && (s.displayName, s.description, s.certificateChainFilename, s.requireCrl)
                 == (a.displayName, a.description, a.certificateChainFilename, a.requireCrl)
              && (s.crlUrl, s.crlSource, s.crlUpdatedAt) == (a.crlUrl, a.crlSource, a.crlUpdatedAt)
              && (s.certificateChain, s.crlChain)
                 == if e.Change? then (c.certificateChain, c.crlChain) else (w.state.certificateChain, w.state.crlChain)
  {
  }

  // ---- Does an applied configuration stay applied? ----

  /** The answer repeats what was applied, apart from the list's URL, source and date. */
  predicate Echoes(a: Answer, c: Config) {
    && a.displayName == c.displayName && a.description == c.description
    && a.certificateChainFilename == c.certificateChainFilename && a.requireCrl == c.requireCrl
  }

  /** What the backend is documented to report of the revocation list it was sent. */
  predicate Reports(a: Answer, r: Request) {
    && (!r.requireCrl ==> a.crlUrl == "" && a.crlSource == "")
    && (r.crlChain.Some? ==> a.crlUrl == PLACEHOLDER)
    && (r.requireCrl && r.crlChain.None? && r.crlUrl.Some? ==> a.crlUrl == r.crlUrl.value)
    && (r.requireCrl && r.crlChain.None? && r.crlUrl.None? ==> a.crlUrl == "")
  }

  /** Every answer reports of the request accepted last what the backend is documented to report. */
  predicate DocumentedRun(w: World, events: seq<Event>)
    decreases |events|
  {
    events != [] ==>
      var accepted := AcceptedBy(w, events[0]);
      && (events[0].answer.Some? ==>
            accepted != [] && Reports(events[0].answer.value, accepted[|accepted| - 1]))
      && DocumentedRun(StepOf(w, events[0]), events[1..])
  }

  lemma ReportsAreHonest(a: Answer, accepted: seq<Request>, r: Request)
    requires r in accepted && Reports(a, r)
    ensures Honest(a, accepted)
  {
  }

  /** The documented backend is an honest one, so that its runs send clean and accounted requests only. */
  lemma {:induction false} DocumentedRunsAreHonest(w: World, events: seq<Event>)
    requires DocumentedRun(w, events)
    ensures HonestRun(w, events)
    decreases |events|
  {
    hide Reports, Honest, StepOf;
    if events != [] {
      var accepted := AcceptedBy(w, events[0]);
      if events[0].answer.Some? {
        ReportsAreHonest(events[0].answer.value, accepted, accepted[|accepted| - 1]);
      }
      DocumentedRunsAreHonest(StepOf(w, events[0]), events[1..]);
    }
  }

  /** After a configuration was applied and read back, planning it again finds nothing to do exactly
      when the URL settles: not required, unset, or as reported. */
  lemma AppliedStaysApplied(state: Authority, c: Config, a: Answer)
    requires Echoes(a, c) && (!c.requireCrl ==> a.crlUrl == "" && a.crlSource == "")
    ensures var after := ReadInto(Applied(PlanFor(state, c)), a);
            PlanFor(after, c) == NoChange(after) <==> !c.requireCrl || c.crlUrl == "" || c.crlUrl == a.crlUrl
  {
  }

  /** With the documented backend only two configurations never settle: a required list given both
      uploaded and by a URL, and the placeholder itself given as URL of a list not uploaded. */
  lemma OnlyContradictionsDrift(state: Authority, c: Config, a: Answer)
    requires Echoes(a, c) && Reports(a, RequestOf(PlanFor(state, c)))
    ensures var after := ReadInto(Applied(PlanFor(state, c)), a);
            PlanFor(after, c) != NoChange(after) <==>
            c.requireCrl && c.crlUrl != "" && (c.crlChain != "" <==> c.crlUrl != PLACEHOLDER)
  {
    AppliedStaysApplied(state, c, a);
  }
}
