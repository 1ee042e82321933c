/** `runSingleAccountWorkerLogic` (main.js): the fixed, flag-gated sequence
    of steps one worker runs for one account, as a trace of steps over the
    server's answers. */
module Workflow {
  import opened Wrappers
  import opened JsValues
  import opened Config
  import opened Client

  /** What the worker does, in order. Sleeps are recorded with their range
      of seconds; the random draw inside it is not modelled. */
  datatype Step =
    | AuthChecked(ok: bool)
    | Pause(range: Range)
    | ProfileFetched(found: bool)
    | QuestsFetched(found: bool)
    | PostVisited(post: Json)
    | QuestSubmitted(position: nat, outcome: QuestOutcome)
    | WavesClaimed(success: bool)
    | ProfileRechecked(found: bool)
    | ScoreIncreased(delta: int)
    | Crashed(position: nat)

  /** The server's answer to each request one worker run can make: the clock
      reading of the authentication check, the first `/me`, `/quests`, the
      completion POST of the quest at each list position, the daily-waves
      POST and the second `/me`. */
  datatype Answers = Answers(
    now: int,
    me: RequestResult,
    quests: RequestResult,
    completion: nat -> RequestResult,
    claim: RequestResult,
    recheck: RequestResult)

  /** The second visit-sleep range inside `completeCheckOutPostQuest` and the
      one before the second `/me`. */
  const AfterVisitPause := Range(1, 2)
  const BeforeRecheckPause := Range(2, 4)

  /** `quest.type` throws on these, which ends the worker through its `catch`. */
  predicate Nullish(v: Json)
  {
    v == JNull || v == JUndefined
  }

  /** The filter of the quest loop. */
  predicate QuestQualifies(cfg: Config, quest: Json)
  {
    Get(quest, "type") == JStr(CheckOutPost) && Truthy(Get(quest, "isActive")) && cfg.completeCheckOutPosts
  }

  /** The page the browser visits for a quest: `quest.metadata.post`. */
  function PostOf(quest: Json): Json
  {
    Get(Get(quest, "metadata"), "post")
  }

  /** The steps of one submitted quest: the optional browser visit, then
      `completeCheckOutPostQuest` and the pause after it. */
  function SubmitSteps(cfg: Config, quests: seq<Json>, i: nat, completion: nat -> RequestResult): seq<Step>
    requires i < |quests|
  {
    var quest := quests[i];
    (if cfg.visitExternalLinks && IsSubmittable(quest)
     then [PostVisited(PostOf(quest)), Pause(AfterVisitPause)]
     else [])
    + [QuestSubmitted(i, CompleteCheckOutPostQuest(quest, completion(i))), Pause(cfg.delayBetweenActions)]
  }

  /** The quest loop from position `i` on; a nullish quest ends it (and the
      worker) with `Crashed`. */
  function QuestSteps(cfg: Config, quests: seq<Json>, i: nat, completion: nat -> RequestResult): seq<Step>
    decreases |quests| - i
  {
    if i >= |quests| then []
    else if Nullish(quests[i]) then [Crashed(i)]
    else if QuestQualifies(cfg, quests[i]) then
      SubmitSteps(cfg, quests, i, completion) + QuestSteps(cfg, quests, i + 1, completion)
    else QuestSteps(cfg, quests, i + 1, completion)
  }

  predicate EndsInCrash(steps: seq<Step>)
  {
    steps != [] && steps[|steps| - 1].Crashed?
  }

  /** The quest list when the quest phase runs and `/quests` gave a list. */
  function QuestList(cfg: Config, w: Answers): seq<Json>
  {
    if cfg.fetchQuests && FetchQuests(w.quests).Some? then FetchQuests(w.quests).value else []
  }

  /** The quest loop met a nullish quest. */
  predicate QuestsCrash(cfg: Config, w: Answers)
  {
    EndsInCrash(QuestSteps(cfg, QuestList(cfg, w), 0, w.completion))
  }

  /** `initialScore`: the first profile's `score` when the profile check runs
      and succeeds, otherwise `null`. */
  function InitialScore(cfg: Config, w: Answers): Json
  {
    if cfg.performMeCheck && GetMeInfo(w.me).Some? then Get(GetMeInfo(w.me).value, "score") else JNull
  }

  function ProfileSteps(cfg: Config, w: Answers): seq<Step>
  {
    if cfg.performMeCheck then [ProfileFetched(GetMeInfo(w.me).Some?), Pause(cfg.delayBetweenActions)] else []
  }

  function QuestPhase(cfg: Config, w: Answers): seq<Step>
  {
    if !cfg.fetchQuests then []
    else
      [QuestsFetched(FetchQuests(w.quests).Some?)]
      + QuestSteps(cfg, QuestList(cfg, w), 0, w.completion)
      + (if QuestsCrash(cfg, w) then [] else [Pause(cfg.delayBetweenActions)])
  }

  /** The second `/me` runs only with the profile check on, a non-null
      initial score, and a claim that succeeded or was already collected. */
  predicate RechecksProfile(cfg: Config, w: Answers)
  {
    var v := ClaimVerdict(w.claim);
    cfg.performMeCheck && InitialScore(cfg, w) != JNull && (v.success || v.alreadyCollected)
  }

  function ClaimSteps(cfg: Config, w: Answers): seq<Step>
  {
    if !cfg.claimDailyWaves then []
    else
      [WavesClaimed(ClaimVerdict(w.claim).success)]
      + if !RechecksProfile(cfg, w) then []
        else
          var after := GetMeInfo(w.recheck);
          [Pause(BeforeRecheckPause), ProfileRechecked(after.Some?)]
          + if after.Some? && Greater(Get(after.value, "score"), InitialScore(cfg, w))
            then [ScoreIncreased(Get(after.value, "score").n - InitialScore(cfg, w).n)]
            else []
  }

  /** The whole trace of one worker run, given the result of `authSayEcho()`. */
  function WorkerSteps(authOk: bool, cfg: Config, w: Answers): seq<Step>
  {
    if !authOk then [AuthChecked(false)]
    else
      [AuthChecked(true), Pause(cfg.delayBetweenActions)] + ProfileSteps(cfg, w) + QuestPhase(cfg, w)
      + (if QuestsCrash(cfg, w) then [] else ClaimSteps(cfg, w))
  }

  /** The claim runs (and so sets the client's flags) only after a successful
      authentication, with the flag on, and when the quest loop did not crash. */
  predicate ClaimRuns(authOk: bool, cfg: Config, w: Answers)
  {
    authOk && cfg.claimDailyWaves && !QuestsCrash(cfg, w)
  }

  /** `runSingleAccountWorkerLogic` for the account of `client`. */
  method RunWorker(client: SayEchoClient, cfg: Config, w: Answers) returns (steps: seq<Step>)
    modifies client
    ensures steps == WorkerSteps(client.AuthSayEcho(false, w.now), cfg, w)
    ensures ClaimRuns(client.AuthSayEcho(false, w.now), cfg, w) ==>
              client.lastClaimWasAlreadyCollected == ClaimVerdict(w.claim).alreadyCollected &&
              client.lastClaimWasAvailable == ClaimVerdict(w.claim).available
    ensures !ClaimRuns(client.AuthSayEcho(false, w.now), cfg, w) ==> unchanged(client)
  {
    var isAuthenticated := client.AuthSayEcho(false, w.now);
    steps := [AuthChecked(isAuthenticated)];
    if !isAuthenticated {
      return;
    }
    steps := steps + [Pause(cfg.delayBetweenActions)];

    var initialScore := JNull;
    if cfg.performMeCheck {
      var initialMeInfo := GetMeInfo(w.me);
      steps := steps + [ProfileFetched(initialMeInfo.Some?)];
      if initialMeInfo.Some? {
        initialScore := Get(initialMeInfo.value, "score");
      }
      steps := steps + [Pause(cfg.delayBetweenActions)];
    }
    assert initialScore == InitialScore(cfg, w);
    ghost var head := steps;
    assert head == [AuthChecked(true), Pause(cfg.delayBetweenActions)] + ProfileSteps(cfg, w);

    if cfg.fetchQuests {
      var quests := FetchQuests(w.quests);
      steps := steps + [QuestsFetched(quests.Some?)];
      var questSteps: seq<Step> := [];
      var crashed := false;
      if quests.Some? {
        questSteps, crashed := QuestLoop(cfg, quests.value, w.completion);
      }
      assert questSteps == QuestSteps(cfg, QuestList(cfg, w), 0, w.completion);
      steps := steps + questSteps;
      if crashed {
        assert steps == head + QuestPhase(cfg, w);
        return;
      }
      steps := steps + [Pause(cfg.delayBetweenActions)];
    }
    assert steps == head + QuestPhase(cfg, w) && !QuestsCrash(cfg, w);

    if cfg.claimDailyWaves {
      var claimSteps := ClaimPhase(client, cfg, w, initialScore);
      steps := steps + claimSteps;
    }
  }

  /** The `for (const quest of quests)` loop. `crashed` says a nullish quest
      threw, which ends the worker. */
  method QuestLoop(cfg: Config, quests: seq<Json>, completion: nat -> RequestResult)
    returns (steps: seq<Step>, crashed: bool)
    ensures steps == QuestSteps(cfg, quests, 0, completion)
    ensures crashed <==> EndsInCrash(steps)
  {
    steps := [];
    var i := 0;
    while i < |quests|
      invariant 0 <= i <= |quests|
      invariant steps + QuestSteps(cfg, quests, i, completion) == QuestSteps(cfg, quests, 0, completion)
      invariant !EndsInCrash(steps)
    {
      var quest := quests[i];
      if quest == JNull || quest == JUndefined {
        steps := steps + [Crashed(i)];
        return steps, true;
      }
      if Get(quest, "type") == JStr(CheckOutPost) && Truthy(Get(quest, "isActive")) && cfg.completeCheckOutPosts {
        ghost var before := steps;
        if cfg.visitExternalLinks && IsSubmittable(quest) {
          steps := steps + [PostVisited(Get(Get(quest, "metadata"), "post")), Pause(AfterVisitPause)];
        }
        var outcome := CompleteCheckOutPostQuest(quest, completion(i));
        steps := steps + [QuestSubmitted(i, outcome), Pause(cfg.delayBetweenActions)];
        assert steps == before + SubmitSteps(cfg, quests, i, completion);
      }
      i := i + 1;
    }
    return steps, false;
  }

  /** The daily-waves claim and the optional second `/me`. */
  method ClaimPhase(client: SayEchoClient, cfg: Config, w: Answers, initialScore: Json) returns (steps: seq<Step>)
    requires cfg.claimDailyWaves && initialScore == InitialScore(cfg, w)
    modifies client
    ensures steps == ClaimSteps(cfg, w)
    ensures client.lastClaimWasAlreadyCollected == ClaimVerdict(w.claim).alreadyCollected
    ensures client.lastClaimWasAvailable == ClaimVerdict(w.claim).available
  {
    var claimSuccess := client.ClaimSayEchoDailyWaves(w.claim);
    steps := [WavesClaimed(claimSuccess)];
    if cfg.performMeCheck && initialScore != JNull && (claimSuccess || client.lastClaimWasAlreadyCollected) {
      steps := steps + [Pause(BeforeRecheckPause)];
      var userInfoAfterClaim := GetMeInfo(w.recheck);
      steps := steps + [ProfileRechecked(userInfoAfterClaim.Some?)];
      if userInfoAfterClaim.Some? {
        var score := Get(userInfoAfterClaim.value, "score");
        if Greater(score, initialScore) {
          steps := steps + [ScoreIncreased(score.n - initialScore.n)];
        }
      }
    }
  }

  /** The positions of the submitted quests, in trace order. */
  function SubmittedPositions(steps: seq<Step>): seq<nat>
  {
    if steps == [] then []
    else (if steps[0].QuestSubmitted? then [steps[0].position] else []) + SubmittedPositions(steps[1..])
  }

  /** The steps the quest loop can produce. */
  predicate LoopStep(s: Step)
  {
    s.Crashed? || s.PostVisited? || s.QuestSubmitted? || s.Pause?
  }

  /** No nullish quest in `quests[lo..hi]`. */
  predicate NoNullishIn(quests: seq<Json>, lo: nat, hi: nat)
    requires hi <= |quests|
  {
    forall m :: lo <= m < hi ==> !Nullish(quests[m])
  }

  lemma {:induction false} SubmittedPositionsAppend(a: seq<Step>, b: seq<Step>)
    ensures SubmittedPositions(a + b) == SubmittedPositions(a) + SubmittedPositions(b)
  {
    if a != [] {
      assert (a + b)[1..] == a[1..] + b;
      SubmittedPositionsAppend(a[1..], b);
    } else {
      assert a + b == b;
    }
  }

  /** The quest positions the loop should submit, from `i` on: those that
      pass the filter, up to the first nullish quest. */
  function Qualifying(cfg: Config, quests: seq<Json>, i: nat): (ps: seq<nat>)
    ensures forall k :: 0 <= k < |ps| ==>
              i <= ps[k] < |quests| && QuestQualifies(cfg, quests[ps[k]]) && NoNullishIn(quests, i, ps[k])
    ensures forall k :: 0 <= k < |ps| - 1 ==> ps[k] < ps[k + 1]
    ensures forall j :: i <= j < |quests| && QuestQualifies(cfg, quests[j]) && NoNullishIn(quests, i, j) ==> j in ps
    decreases |quests| - i
  {
    if i >= |quests| || Nullish(quests[i]) then []
    else
      var rest := Qualifying(cfg, quests, i + 1);
      NoNullishShift(quests, i);
      if QuestQualifies(cfg, quests[i]) then [i] + rest else rest
  }

  /** A range without nullish quests that starts at a non-nullish one. */
  lemma NoNullishShift(quests: seq<Json>, i: nat)
    requires i < |quests| && !Nullish(quests[i])
    ensures forall j :: i < j <= |quests| ==> (NoNullishIn(quests, i, j) <==> NoNullishIn(quests, i + 1, j))
  {
  }

  /** One submitted quest contributes exactly its own position. */
  lemma SubmitStepsPosition(cfg: Config, quests: seq<Json>, i: nat, completion: nat -> RequestResult)
    requires i < |quests|
    ensures SubmittedPositions(SubmitSteps(cfg, quests, i, completion)) == [i]
    ensures forall s :: s in SubmitSteps(cfg, quests, i, completion) ==> LoopStep(s)
  {
    var quest := quests[i];
    var visit: seq<Step> :=
      if cfg.visitExternalLinks && IsSubmittable(quest)
      then [PostVisited(PostOf(quest)), Pause(AfterVisitPause)]
      else [];
    var submit := [QuestSubmitted(i, CompleteCheckOutPostQuest(quest, completion(i))), Pause(cfg.delayBetweenActions)];
    SubmittedPositionsAppend(visit, submit);
    assert SubmittedPositions(visit) == [] by {
      if visit != [] {
        assert visit[1..][1..] == [];
      }
    }
    assert submit[1..][1..] == [];
    assert SubmittedPositions(submit) == [i];
  }

  /** The quest loop submits exactly the qualifying quests before the first
      nullish one, in list order. */
  lemma {:induction false} QuestPositions(cfg: Config, quests: seq<Json>, i: nat, completion: nat -> RequestResult)
    ensures SubmittedPositions(QuestSteps(cfg, quests, i, completion)) == Qualifying(cfg, quests, i)
    decreases |quests| - i
  {
    if i < |quests| && !Nullish(quests[i]) {
      QuestPositions(cfg, quests, i + 1, completion);
      if QuestQualifies(cfg, quests[i]) {
        SubmitStepsPosition(cfg, quests, i, completion);
        SubmittedPositionsAppend(SubmitSteps(cfg, quests, i, completion), QuestSteps(cfg, quests, i + 1, completion));
      }
    } else if i < |quests| {
      assert SubmittedPositions([Crashed(i)]) == SubmittedPositions([Crashed(i)][1..]);
    }
  }

  /** The quest loop produces only visits, submissions, pauses and the crash. */
  lemma {:induction false} QuestLoopSteps(cfg: Config, quests: seq<Json>, i: nat, completion: nat -> RequestResult)
    ensures forall s :: s in QuestSteps(cfg, quests, i, completion) ==> LoopStep(s)
    decreases |quests| - i
  {
    if i < |quests| && !Nullish(quests[i]) {
      QuestLoopSteps(cfg, quests, i + 1, completion);
      if QuestQualifies(cfg, quests[i]) {
        SubmitStepsPosition(cfg, quests, i, completion);
      }
    }
  }

  /** The loop crashes exactly when the list holds a nullish quest. */
  lemma {:induction false} CrashIffNullish(cfg: Config, quests: seq<Json>, i: nat, completion: nat -> RequestResult)
    ensures EndsInCrash(QuestSteps(cfg, quests, i, completion)) <==>
            exists j :: i <= j < |quests| && Nullish(quests[j])
    decreases |quests| - i
  {
    if i < |quests| && !Nullish(quests[i]) {
      CrashIffNullish(cfg, quests, i + 1, completion);
      var rest := QuestSteps(cfg, quests, i + 1, completion);
      if QuestQualifies(cfg, quests[i]) {
        var sub := SubmitSteps(cfg, quests, i, completion);
        assert sub[|sub| - 1] == Pause(cfg.delayBetweenActions);
        if rest != [] {
          assert (sub + rest)[|sub + rest| - 1] == rest[|rest| - 1];
        }
      }
      if exists j :: i <= j < |quests| && Nullish(quests[j]) {
        var j :| i <= j < |quests| && Nullish(quests[j]);
        assert j != i;
      }
    }
  }

  /** A failed authentication ends the worker before any request. */
  lemma AuthFailureStops(cfg: Config, w: Answers)
    ensures forall s :: s in WorkerSteps(false, cfg, w) ==> s == AuthChecked(false)
  {
  }

  /** The second `/me` happens exactly when the claim ran and the recheck
      condition holds. */
  lemma RecheckFollowsClaim(authOk: bool, cfg: Config, w: Answers)
    ensures ProfileRechecked(true) in WorkerSteps(authOk, cfg, w) || ProfileRechecked(false) in WorkerSteps(authOk, cfg, w)
            <==> ClaimRuns(authOk, cfg, w) && RechecksProfile(cfg, w)
  {
    QuestLoopSteps(cfg, QuestList(cfg, w), 0, w.completion);
    if authOk {
      var steps := WorkerSteps(authOk, cfg, w);
      var tail := if QuestsCrash(cfg, w) then [] else ClaimSteps(cfg, w);
      assert steps == [AuthChecked(true), Pause(cfg.delayBetweenActions)] + ProfileSteps(cfg, w) + QuestPhase(cfg, w) + tail;
      if ClaimRuns(authOk, cfg, w) && RechecksProfile(cfg, w) {
        assert tail[2] in steps;
      }
    }
  }

  /** A reported increase is positive: the new score minus the initial one,
      both numbers. */
  lemma IncreaseIsPositive(authOk: bool, cfg: Config, w: Answers)
    ensures forall s :: s in WorkerSteps(authOk, cfg, w) && s.ScoreIncreased? ==>
              && InitialScore(cfg, w).JNum?
              && GetMeInfo(w.recheck).Some?
              && Get(GetMeInfo(w.recheck).value, "score").JNum?
              && s.delta == Get(GetMeInfo(w.recheck).value, "score").n - InitialScore(cfg, w).n
              && s.delta > 0
  {
    QuestLoopSteps(cfg, QuestList(cfg, w), 0, w.completion);
    if authOk {
      var steps := WorkerSteps(authOk, cfg, w);
      var tail := if QuestsCrash(cfg, w) then [] else ClaimSteps(cfg, w);
      assert steps == [AuthChecked(true), Pause(cfg.delayBetweenActions)] + ProfileSteps(cfg, w) + QuestPhase(cfg, w) + tail;
    }
  }

  /** The profile check runs exactly when its flag is on after a successful
      authentication. */
  lemma ProfilePhaseFollowsFlag(authOk: bool, cfg: Config, w: Answers)
    ensures ProfileFetched(true) in WorkerSteps(authOk, cfg, w) || ProfileFetched(false) in WorkerSteps(authOk, cfg, w)
            <==> authOk && cfg.performMeCheck
  {
    QuestLoopSteps(cfg, QuestList(cfg, w), 0, w.completion);
    if authOk {
      var steps := WorkerSteps(authOk, cfg, w);
      var claim := if QuestsCrash(cfg, w) then [] else ClaimSteps(cfg, w);
      assert steps == [AuthChecked(true), Pause(cfg.delayBetweenActions)] + ProfileSteps(cfg, w) + QuestPhase(cfg, w) + claim;
    }
  }

  /** The quest phase runs exactly when its flag is on after a successful
      authentication. */
  lemma QuestPhaseFollowsFlag(authOk: bool, cfg: Config, w: Answers)
    ensures QuestsFetched(true) in WorkerSteps(authOk, cfg, w) || QuestsFetched(false) in WorkerSteps(authOk, cfg, w)
            <==> authOk && cfg.fetchQuests
  {
    QuestLoopSteps(cfg, QuestList(cfg, w), 0, w.completion);
    if authOk {
      var steps := WorkerSteps(authOk, cfg, w);
      var claim := if QuestsCrash(cfg, w) then [] else ClaimSteps(cfg, w);
      assert steps == [AuthChecked(true), Pause(cfg.delayBetweenActions)] + ProfileSteps(cfg, w) + QuestPhase(cfg, w) + claim;
    }
  }

  /** The claim runs exactly when its flag is on after a successful
      authentication and a quest loop that did not crash. */
  lemma ClaimPhaseFollowsFlag(authOk: bool, cfg: Config, w: Answers)
    ensures WavesClaimed(true) in WorkerSteps(authOk, cfg, w) || WavesClaimed(false) in WorkerSteps(authOk, cfg, w)
            <==> ClaimRuns(authOk, cfg, w)
  {
    QuestLoopSteps(cfg, QuestList(cfg, w), 0, w.completion);
    if authOk {
      var steps := WorkerSteps(authOk, cfg, w);
      var claim := if QuestsCrash(cfg, w) then [] else ClaimSteps(cfg, w);
      assert steps == [AuthChecked(true), Pause(cfg.delayBetweenActions)] + ProfileSteps(cfg, w) + QuestPhase(cfg, w) + claim;
      if ClaimRuns(authOk, cfg, w) {
        assert claim[0] in steps;
      }
    }
  }

  /** Quest `j` is submittable and `p` is its post. */
  predicate VisitsAt(quests: seq<Json>, j: nat, p: Json)
  {
    j < |quests| && IsSubmittable(quests[j]) && p == PostOf(quests[j])
  }

  /** Some position of `ps` is a submittable quest whose post is `p`. */
  ghost predicate SomeVisitsAt(quests: seq<Json>, ps: seq<nat>, p: Json)
  {
    exists j :: j in ps && VisitsAt(quests, j, p)
  }

  /** The browser opens a post exactly with `visitExternalLinks` on, and
      exactly the posts of the submittable quests the loop handles. */
  lemma {:induction false} VisitFollowsFlag(cfg: Config, quests: seq<Json>, i: nat, completion: nat -> RequestResult, p: Json)
    ensures PostVisited(p) in QuestSteps(cfg, quests, i, completion) <==>
            cfg.visitExternalLinks && SomeVisitsAt(quests, Qualifying(cfg, quests, i), p)
    decreases |quests| - i
  {
    if i < |quests| && !Nullish(quests[i]) {
      VisitFollowsFlag(cfg, quests, i + 1, completion, p);
      if QuestQualifies(cfg, quests[i]) {
        VisitInSubmit(cfg, quests, i, completion, p);
        SomeVisitsAtCons(quests, i, Qualifying(cfg, quests, i + 1), p);
      }
    } else {
      assert Qualifying(cfg, quests, i) == [];
    }
  }

  lemma VisitInSubmit(cfg: Config, quests: seq<Json>, i: nat, completion: nat -> RequestResult, p: Json)
    requires i < |quests|
    ensures PostVisited(p) in SubmitSteps(cfg, quests, i, completion) <==> cfg.visitExternalLinks && VisitsAt(quests, i, p)
  {
  }

  lemma SomeVisitsAtCons(quests: seq<Json>, i: nat, ps: seq<nat>, p: Json)
    ensures SomeVisitsAt(quests, [i] + ps, p) <==> VisitsAt(quests, i, p) || SomeVisitsAt(quests, ps, p)
  {
    if SomeVisitsAt(quests, [i] + ps, p) {
      var j :| j in [i] + ps && VisitsAt(quests, j, p);
      if j != i {
        assert j in ps;
      }
    }
    if VisitsAt(quests, i, p) {
      assert i in [i] + ps;
    }
    if SomeVisitsAt(quests, ps, p) {
      var j :| j in ps && VisitsAt(quests, j, p);
      assert j in [i] + ps;
    }
  }

  /** With `visitExternalLinks` off no worker opens a browser. */
  lemma NoVisitWhenDisabled(authOk: bool, cfg: Config, w: Answers, p: Json)
    requires !cfg.visitExternalLinks
    ensures PostVisited(p) !in WorkerSteps(authOk, cfg, w)
  {
    VisitFollowsFlag(cfg, QuestList(cfg, w), 0, w.completion, p);
    if authOk {
      var claim := if QuestsCrash(cfg, w) then [] else ClaimSteps(cfg, w);
      assert WorkerSteps(authOk, cfg, w) ==
             [AuthChecked(true), Pause(cfg.delayBetweenActions)] + ProfileSteps(cfg, w) + QuestPhase(cfg, w) + claim;
    }
  }
}
