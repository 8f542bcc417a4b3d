/** The tool loop on the streaming route: its prompts are answered by the parking registry (routes/chat.ts 187-258). */
module StreamingConsent {
  import opened Text
  import opened ChatLoop
  import Desk = ConsentRegistry

  type Session = seq<Desk.Event<bool>>

  /** The id a prompt is parked under, given what the turn has done before it. */
  type Ids = Log -> string

  function After(session: Session): Desk.Desk<bool> {
    Desk.AfterAll(Desk.EmptyDesk(), session, false)
  }

  /** The registry, after the whole session, holds this answer to the prompt that the owner's turn parked. */
  ghost predicate Settled(session: Session, owner: Desk.Owner, id: string, yes: bool) {
    && Desk.OwnerOf(session, id) == Some(owner)
    && id in After(session).settled && After(session).settled[id] == yes
  }

  /** randomUUID: no two prompts of the turn share an id. */
  ghost predicate DistinctIds(ids: Ids, log: Log) {
    forall i, j :: 0 <= i < j <= |log| ==> ids(log[..i]) != ids(log[..j])
  }

  /** The dependencies of a streaming turn: its prompts resolve to what the registry settles them with; a prompt
      that is not settled has not resolved. */
  ghost predicate AnsweredBySession(d: Deps, session: Session, owner: Desk.Owner, ids: Ids, log: Log) {
    && Desk.IsSession(Desk.EmptyDesk(), session, false) && DistinctIds(ids, log)
    && forall i: nat, yes: bool :: i < |log| && PromptAt(d, log[..i], log[i], yes) ==>
         Settled(session, owner, ids(log[..i]), yes)
  }

  /** This effect is a yes-or-no prompt that the transport's callback resolves. */
  ghost predicate PromptAt(d: Deps, before: Log, e: Effect, yes: bool) {
    match e
    case AskApproval(tool, input, risk, _) =>
      d.requestApproval.Some? && d.requestApproval.value(before, tool, input, risk) == Resolved(yes)
    case AskPlan(plan, _) => d.requestPlan.Some? && d.requestPlan.value(before, plan) == Resolved(yes)
    case _ => false
  }

  /** Event j is the yes of the turn's own organisation and user to the prompt with this id: the prompt was parked
      by that owner before, and until j neither its timer fired nor the owner answered it. */
  ghost predicate YesAt(session: Session, owner: Desk.Owner, id: string, j: int) {
    && 0 <= j < |session| && session[j] == Desk.Post(id, owner, true)
    && exists p :: 0 <= p < j && session[p] == Desk.Park(id, owner) && OpenBetween(session, owner, id, p, j)
  }

  ghost predicate OpenBetween(session: Session, owner: Desk.Owner, id: string, p: nat, j: nat)
    requires j < |session|
  {
    forall i :: p < i < j ==>
      session[i] != Desk.TimerFires(id) && !(session[i].Post? && session[i].id == id && session[i].owner == owner)
  }

  ghost predicate Confirmed(session: Session, owner: Desk.Owner, id: string) {
    exists j :: YesAt(session, owner, id, j)
  }

  lemma {:induction false} YesIsPosted(session: Session, owner: Desk.Owner, id: string) returns (j: int)
    requires Desk.IsSession(Desk.EmptyDesk(), session, false) && Settled(session, owner, id, true)
    ensures YesAt(session, owner, id, j)
  {
    Desk.SettlesWithItsVerdict(Desk.EmptyDesk(), session, false, id);
    Desk.OnlyTheOwnerAnswers(session, id, false, true);
    var p, n :| Desk.ParkedAndAnswered(session, id, owner, true, p, n);
    j := p + 1 + n;
    forall i | p < i < j
      ensures session[i] != Desk.TimerFires(id)
      ensures !(session[i].Post? && session[i].id == id && session[i].owner == owner)
    {
      assert session[p + 1..][i - p - 1] == session[i];
    }
    assert OpenBetween(session, owner, id, p, j);
  }

  /** A run of a tool that the injected riskOf calls destructive. */
  predicate IsDestructiveRun(d: Deps, e: Effect) {
    e.Exec? && d.riskOf.Some? && d.riskOf.value(e.tool) == Destructive
  }

  predicate IsAgreedPlan(e: Effect) {
    e.AskPlan? && e.agreed == Resolved(true)
  }

  /** End to end: the owner's yes to that very use was POSTed for a destructive run; for a write run such a yes
      was, or one to a plan that names the tool and of which more runs were granted than used. */
  lemma {:induction false} EveryRunWasConfirmed(d: Deps, session: Session, owner: Desk.Owner, ids: Ids, log: Log,
                                                k: nat)
    requires LawfulLog(d, log) && AnsweredBySession(d, session, owner, ids, log)
    requires k < |log| && log[k].Exec?
    ensures d.riskOf.Some? && d.riskOf.value(log[k].tool) == Destructive ==>
      k > 0 && Confirmed(session, owner, ids(log[..k - 1]))
    ensures d.riskOf.Some? && d.riskOf.value(log[k].tool) == Write ==>
      || (k > 0 && Confirmed(session, owner, ids(log[..k - 1])))
      || (AutoRuns(d, log[..k], log[k].tool) < Granted(d, log[..k], log[k].tool)
          && exists i :: 0 <= i < k && PlanConfirmed(session, owner, ids, log, i, log[k].tool))
  {
    EveryRunIsConsented(d, log, k);
    var tool := log[k].tool;
    if k > 0 && ConsentedBy(d, log, k) {
      assert PromptAt(d, log[..k - 1], log[k - 1], true);
      var j := YesIsPosted(session, owner, ids(log[..k - 1]));
    } else if d.riskOf.Some? && d.riskOf.value(tool) == Write {
      var i :| 0 <= i < k && IsAgreedPlan(log[i]) && Names(tool) in log[i].plan.steps;
      var j := PlanIsPosted(d, session, owner, ids, log, i);
      assert PlanConfirmed(session, owner, ids, log, i, tool);
    }
  }

  lemma {:induction false} PlanIsPosted(d: Deps, session: Session, owner: Desk.Owner, ids: Ids, log: Log,
                                        i: nat)
    returns (j: int)
    requires LawfulLog(d, log) && AnsweredBySession(d, session, owner, ids, log)
    requires i < |log| && IsAgreedPlan(log[i])
    ensures YesAt(session, owner, ids(log[..i]), j)
  {
    LawfulAt(d, log, i);
    assert PromptAt(d, log[..i], log[i], true);
    j := YesIsPosted(session, owner, ids(log[..i]));
  }

  ghost predicate PlanConfirmed(session: Session, owner: Desk.Owner, ids: Ids, log: Log, i: nat, tool: string)
    requires i < |log|
  {
    log[i].AskPlan? && Names(tool) in log[i].plan.steps && Confirmed(session, owner, ids(log[..i]))
  }

  // ---- one POST confirms one thing ----

  /** A matching that gives each element of a one of b, and no two the same. */
  lemma {:induction false} Matched(a: set<nat>, b: set<nat>, matches: (nat, nat) -> bool)
    requires forall k :: k in a ==> exists j :: j in b && matches(k, j)
    requires forall k, l, j :: k in a && l in a && matches(k, j) && matches(l, j) ==> k == l
    ensures |a| <= |b|
  {
    if a != {} {
      var k :| k in a;
      var j :| j in b && matches(k, j);
      Matched(a - {k}, b - {j}, matches);
    }
  }

  /** POST j is the yes that entry k needed: a destructive run, the one to the prompt right before it; an agreed plan,
      the one to itself. */
  ghost predicate AnswersTo(d: Deps, session: Session, owner: Desk.Owner, ids: Ids, log: Log, k: nat, j: nat) {
    && k < |log| && (IsDestructiveRun(d, log[k]) ==> k > 0 && log[k - 1].AskApproval?)
    && YesAt(session, owner, ids(log[..PromptOf(d, log, k)]), j)
  }

  function PromptOf(d: Deps, log: Log, k: nat): nat
    requires k < |log| && (IsDestructiveRun(d, log[k]) ==> k > 0)
  {
    if IsDestructiveRun(d, log[k]) then k - 1 else k
  }

  lemma {:induction false} ConsentIsPosted(d: Deps, session: Session, owner: Desk.Owner, ids: Ids, log: Log, k: nat)
    returns (j: nat)
    requires LawfulLog(d, log) && AnsweredBySession(d, session, owner, ids, log)
    requires k < |log| && (IsDestructiveRun(d, log[k]) || IsAgreedPlan(log[k]))
    ensures AnswersTo(d, session, owner, ids, log, k, j)
  {
    if IsAgreedPlan(log[k]) {
      j := PlanIsPosted(d, session, owner, ids, log, k);
    } else {
      EveryRunIsConsented(d, log, k);
      assert PromptAt(d, log[..k - 1], log[k - 1], true);
      j := YesIsPosted(session, owner, ids(log[..k - 1]));
    }
  }

  lemma {:induction false} OnePostEach(d: Deps, session: Session, owner: Desk.Owner, ids: Ids, log: Log,
                                       k: nat, l: nat, j: nat)
    requires DistinctIds(ids, log)
    requires AnswersTo(d, session, owner, ids, log, k, j) && AnswersTo(d, session, owner, ids, log, l, j)
    requires IsDestructiveRun(d, log[k]) || IsAgreedPlan(log[k])
    requires IsDestructiveRun(d, log[l]) || IsAgreedPlan(log[l])
    ensures k == l
  {
    var p, q := PromptOf(d, log, k), PromptOf(d, log, l);
    assert ids(log[..p]) == ids(log[..q]);
    assert p == q;
  }

  /** One POST confirms one thing: a turn has at most as many destructive runs and agreed plans together as its
      owner POSTed yeses. */
  lemma {:induction false} EachConsentIsPosted(d: Deps, session: Session, owner: Desk.Owner, ids: Ids, log: Log)
    requires LawfulLog(d, log) && AnsweredBySession(d, session, owner, ids, log)
    ensures |set k: nat | k < |log| &&
               (|| (log[k].Exec? && d.riskOf.Some? && d.riskOf.value(log[k].tool) == Destructive)
                || (log[k].AskPlan? && log[k].agreed == Resolved(true)))|
         <= |set j: nat | j < |session| && session[j].Post? && session[j].owner == owner && session[j].value|
  {
    hide YesAt, LawfulLog;
    var consents := set k: nat | k < |log| && (IsDestructiveRun(d, log[k]) || IsAgreedPlan(log[k]));
    var yeses := set j: nat | j < |session| && session[j].Post? && session[j].owner == owner && session[j].value;
    var matches := (k: nat, j: nat) => AnswersTo(d, session, owner, ids, log, k, j);
    forall k | k in consents ensures exists j :: j in yeses && matches(k, j) {
      var j := ConsentIsPosted(d, session, owner, ids, log, k);
      YesIsYes(session, owner, ids(log[..PromptOf(d, log, k)]), j);
      assert j in yeses && matches(k, j);
    }
    forall k, l, j | k in consents && l in consents && matches(k, j) && matches(l, j) ensures k == l {
      OnePostEach(d, session, owner, ids, log, k, l, j);
    }
    Matched(consents, yeses, matches);
    assert consents
        == set k: nat | k < |log| &&
             (|| (log[k].Exec? && d.riskOf.Some? && d.riskOf.value(log[k].tool) == Destructive)
              || (log[k].AskPlan? && log[k].agreed == Resolved(true)));
  }

  lemma {:induction false} YesIsYes(session: Session, owner: Desk.Owner, id: string, j: int)
    requires YesAt(session, owner, id, j)
    ensures 0 <= j < |session| && session[j].Post? && session[j].owner == owner && session[j].value
  {
  }

  // ---- every turn has its session ----

  /** The settled prompts of a log are each answered under their place in it, and later places are free. */
  ghost predicate AnsweredSoFar(d: Deps, session: Session, owner: Desk.Owner, log: Log) {
    && Desk.IsSession(Desk.EmptyDesk(), session, false) && After(session).pending == map[]
    && After(session).timers == {}
    && (forall k: nat :: k >= |log| ==>
          Decimal(k) !in After(session).settled && Desk.OwnerOf(session, Decimal(k)) == None)
    && (forall i: nat, yes: bool :: i < |log| && PromptAt(d, log[..i], log[i], yes) ==>
          Settled(session, owner, Decimal(i), yes))
  }

  lemma {:induction false} DecimalsDiffer(i: nat, k: nat)
    ensures Decimal(i) == Decimal(k) ==> i == k
  {
    NumeralOfDecimal(i);
    NumeralOfDecimal(k);
  }

  lemma {:induction false} NextAnswer(d: Deps, session: Session, owner: Desk.Owner, log: Log, e: Effect, yes: bool)
    returns (longer: Session)
    requires AnsweredSoFar(d, session, owner, log) && PromptAt(d, log, e, yes)
    ensures AnsweredSoFar(d, longer, owner, log + [e])
  {
    hide PromptAt, Decimal;
    var id, desk := Decimal(|log|), After(session);
    var both := [Desk.Event<bool>.Park(id, owner), Desk.Post(id, owner, yes)];
    longer := session + both;
    Desk.AskAndAnswer(desk, id, owner, yes, false);
    Desk.SessionAppend(Desk.EmptyDesk(), session, both, false);
    forall k: nat | k >= |log| + 1
      ensures Decimal(k) !in After(longer).settled && Desk.OwnerOf(longer, Decimal(k)) == None {
      DecimalsDiffer(|log|, k);
      Desk.FirstOwner(session, both, Decimal(k));
    }
    var all := log + [e];
    forall i: nat, y: bool | i < |all| && PromptAt(d, all[..i], all[i], y)
      ensures Settled(longer, owner, Decimal(i), y) {
      DecimalsDiffer(|log|, i);
      Desk.FirstOwner(session, both, Decimal(i));
      if i < |log| {
        assert all[..i] == log[..i] && all[i] == log[i];
      } else {
        assert all[..i] == log && all[i] == e;
        OneAnswer(d, log, e, yes, y);
      }
    }
  }

  lemma {:induction false} OneAnswer(d: Deps, before: Log, e: Effect, yes: bool, y: bool)
    requires PromptAt(d, before, e, yes) && PromptAt(d, before, e, y)
    ensures yes == y
  {
  }

  lemma {:induction false} AnswerAll(d: Deps, owner: Desk.Owner, log: Log) returns (session: Session)
    ensures AnsweredSoFar(d, session, owner, log)
  {
    if log == [] {
      session := [];
    } else {
      hide PromptAt, Decimal;
      var n := |log| - 1;
      var e := log[n];
      session := AnswerAll(d, owner, log[..n]);
      assert log == log[..n] + [e];
      if PromptAt(d, log[..n], e, true) {
        session := NextAnswer(d, session, owner, log[..n], e, true);
      } else if PromptAt(d, log[..n], e, false) {
        session := NextAnswer(d, session, owner, log[..n], e, false);
      } else {
        forall i: nat, yes: bool | i < |log| && PromptAt(d, log[..i], log[i], yes)
          ensures Settled(session, owner, Decimal(i), yes) {
          assert yes == true || yes == false;
          assert i < n ==> log[..n][..i] == log[..i] && log[..n][i] == log[i];
        }
      }
    }
  }

  /** The other direction: whatever the user answered in a turn, some session of the registry answers it so, with an
      id for each prompt. */
  lemma {:induction false} EveryTurnHasASession(d: Deps, owner: Desk.Owner, log: Log)
    returns (session: Session, ids: Ids)
    ensures AnsweredBySession(d, session, owner, ids, log)
    ensures forall i, j :: 0 <= i < j <= |log| ==> ids(log[..i]) != ids(log[..j])
  {
    hide PromptAt, Decimal;
    session := AnswerAll(d, owner, log);
    ids := (before: Log) => Decimal(|before|);
    forall i, j | 0 <= i < j <= |log| ensures ids(log[..i]) != ids(log[..j]) {
      DecimalsDiffer(i, j);
    }
  }
}
