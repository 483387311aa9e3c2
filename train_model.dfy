/** The training page: submitting a training job, polling its status until it ends, and
    normalising the result that comes back. */
module TrainModel {
  import opened Wrappers
  import opened Json
  import opened Effects

  const MaxAttempts: nat := 900
  const PollDelay: nat := 5000
  const FallbackDelay: nat := 500

  const StatusEndpoint := "/process/train_status"
  const TrainEndpoint := "/process/train"

  const CompletedNotice := "Training completed successfully"
  const FailedNotice := "Training failed"
  const TimeoutNotice := "Training timed out"
  const PollErrorNotice := "Error checking training status"
  const FetchErrorNotice := "Error fetching existing results"

  // ---------------------------------------------------------------------------------------
  // Result normalisation

  /** Decoding the `metrics` of a result: a string is replaced by what `parse` (the model of
      `JSON.parse`) makes of it, or by `[]` when it does not decode; anything else stays. */
  function NormaliseResult(r: Object, parse: string -> Option<Json>): Object {
    match Get(r, "metrics")
    case Some(JString(text)) => Set(r, "metrics", parse(text).GetOr(JArray([])))
    case _ => r
  }

  /** Normalising keeps the keys and their order and every member but `metrics`; a string
      `metrics` becomes its decoding, and a result without one is returned as it is. */
  lemma NormaliseResultFields(r: Object, parse: string -> Option<Json>)
    ensures var n := NormaliseResult(r, parse);
      && Keys(n) == Keys(r)
      && (forall k :: k != "metrics" ==> Get(n, k) == Get(r, k))
      && (Get(r, "metrics").Some? && Get(r, "metrics").value.JString? ==>
            Get(n, "metrics") == Some(parse(Get(r, "metrics").value.s).GetOr(JArray([]))))
      && (!(Get(r, "metrics").Some? && Get(r, "metrics").value.JString?) ==> n == r)
  {
    match Get(r, "metrics")
    case Some(JString(text)) =>
      var v := parse(text).GetOr(JArray([]));
      forall k ensures Get(Set(r, "metrics", v), k) == if k == "metrics" then Some(v) else Get(r, k) {
        SetGet(r, "metrics", v, k);
      }
      SetGet(r, "metrics", v, "metrics");
    case _ =>
  }

  /** A result whose metrics are already structured is a fixed point, so normalising twice is
      normalising once whenever the decoded metrics are not themselves a string. */
  lemma NormaliseTwice(r: Object, parse: string -> Option<Json>)
    requires Get(r, "metrics").Some? && Get(r, "metrics").value.JString? ==>
               !parse(Get(r, "metrics").value.s).GetOr(JArray([])).JString?
    ensures NormaliseResult(NormaliseResult(r, parse), parse) == NormaliseResult(r, parse)
  {
    NormaliseResultFields(r, parse);
  }

  // ---------------------------------------------------------------------------------------
  // Replies of the backend

  datatype StatusReply = StatusReply(status: string, result: Option<Object>)
  datatype FetchReply = FetchReply(result: Option<Object>)
  datatype SubmitReply = SubmitReply(taskId: Option<string>, result: Option<Object>)

  /** What a polling run holds fixed: the job, the user whose last result the fallback fetches,
      and the answer to that fallback fetch should it be made. */
  datatype PollContext = PollContext(taskId: string, taskType: string, user: Option<User>, fallback: Call<FetchReply>)

  function StatusParams(ctx: PollContext): Object {
    [Field("train_id", JString(ctx.taskId)), Field("task_type", JString(ctx.taskType))]
  }

  function StatusQuery(ctx: PollContext): Event {
    Request(HttpGet, StatusEndpoint, StatusParams(ctx))
  }

  function ResultParams(user: Option<User>): Object {
    match user
    case None => []
    case Some(u) => OptionalField("project_id", IdJson(u.projectId)) + [Field("user_id", JNumber(u.userId as real))]
  }

  predicate IsPending(reply: Call<StatusReply>) {
    reply.Answered? && reply.body.status == "pending"
  }

  /** The replies whose handling raises inside the polling `try`: the status query itself, or the
      fallback fetch that a `completed` reply without a result triggers. */
  predicate Raises(reply: Call<StatusReply>, ctx: PollContext) {
    || reply.Threw?
    || (reply.body.status == "completed" && reply.body.result.None? && ctx.fallback.Threw?)
  }

  // ---------------------------------------------------------------------------------------
  // The polling loop, as a function of the replies

  /** The loop's variables with the page's `results` slot and the events issued so far. */
  datatype PollState = PollState(status: string, attempts: nat, results: Option<Object>, events: seq<Event>, raised: bool)

  function Start(results0: Option<Object>): PollState {
    PollState("pending", 0, results0, [], false)
  }

  /** The loop condition `status === 'pending' && attempts < maxAttempts`, inside the `try`. */
  predicate Looping(s: PollState) {
    !s.raised && s.status == "pending" && s.attempts < MaxAttempts
  }

  /** One pass of the loop body on the reply to its status query: one more attempt, the
      status the reply carries, the `results` slot it leaves, the query and what follows it,
      and whether it raised. */
  function Iteration(s: PollState, reply: Call<StatusReply>, ctx: PollContext, parse: string -> Option<Json>): PollState
    requires Looping(s)
  {
    PollState(if reply.Threw? then s.status else reply.body.status,
              s.attempts + 1,
              ReplyResults(s.results, reply, ctx, parse),
              s.events + [StatusQuery(ctx)] + ReplyEvents(reply, ctx),
              Raises(reply, ctx))
  }

  /** The `results` slot after a reply; what the `catch` does to it comes later. */
  function ReplyResults(results: Option<Object>, reply: Call<StatusReply>, ctx: PollContext, parse: string -> Option<Json>): Option<Object> {
    match reply
    case Threw(_) => results
    case Answered(body) =>
      if body.status == "completed" then
        match body.result
        case Some(r) => Some(NormaliseResult(r, parse))
        case None =>
          if ctx.fallback.Answered? && ctx.fallback.body.result.Some? then ctx.fallback.body.result else results
      else if body.status == "failed" then None
      else results
  }

  /** The events one loop pass issues after its status query. */
  function ReplyEvents(reply: Call<StatusReply>, ctx: PollContext): (es: seq<Event>)
    ensures StatusQuery(ctx) !in es && Notify(TimeoutNotice, Error) !in es
  {
    match reply
    case Threw(_) => []
    case Answered(body) =>
      if body.status == "completed" then
        if body.result.Some? then [Notify(CompletedNotice, Success)]
        else if ctx.fallback.Threw? then [Wait(FallbackDelay), Request(HttpGet, TrainEndpoint, ResultParams(ctx.user))]
        else [Wait(FallbackDelay), Request(HttpGet, TrainEndpoint, ResultParams(ctx.user)), Notify(CompletedNotice, Success)]
      else if body.status == "failed" then [Notify(FailedNotice, Error)]
      else [Wait(PollDelay)]
  }

  /** The loop run on the replies still to come; it stops when its condition fails or when no
      reply is left (the loop is then still waiting for the next one). */
  function Loop(s: PollState, replies: seq<Call<StatusReply>>, ctx: PollContext, parse: string -> Option<Json>): PollState
    decreases |replies|
  {
    if Looping(s) && replies != [] then Loop(Iteration(s, replies[0], ctx, parse), replies[1..], ctx, parse) else s
  }

  lemma LoopStep(s: PollState, replies: seq<Call<StatusReply>>, ctx: PollContext, parse: string -> Option<Json>)
    requires Looping(s) && replies != []
    ensures Loop(s, replies, ctx, parse) == Loop(Iteration(s, replies[0], ctx, parse), replies[1..], ctx, parse)
  {
  }


  /** What a polling run leaves behind: the attempt counter, whether `pollTrainingStatus`
      returned, the `results` slot, and the events issued, in order. */
  datatype PollRun = PollRun(attempts: nat, ended: bool, results: Option<Object>, events: seq<Event>)

  /** The code after the loop: the timeout check, or the `catch` when something raised. */
  function Finish(s: PollState): PollRun {
    if s.raised then PollRun(s.attempts, true, None, s.events + [Notify(PollErrorNotice, Error)])
    else if Looping(s) then PollRun(s.attempts, false, s.results, s.events)
    else PollRun(s.attempts, true, s.results, s.events + TimeoutTail(s.attempts))
  }

  /** The timeout check after the loop: `attempts >= maxAttempts` adds the timeout notice. */
  function TimeoutTail(attempts: nat): seq<Event> {
    if attempts >= MaxAttempts then [Notify(TimeoutNotice, Error)] else []
  }

  /** `pollTrainingStatus` on the given replies, starting from the `results` slot `results0`. */
  function PollTraining(replies: seq<Call<StatusReply>>, ctx: PollContext, parse: string -> Option<Json>, results0: Option<Object>): PollRun {
    Finish(Loop(Start(results0), replies, ctx, parse))
  }

  // ---------------------------------------------------------------------------------------
  // Properties of the polling loop

  /** The events of `k` pending rounds: one status query followed by one wait, `k` times. */
  function PendingEvents(k: nat, ctx: PollContext): seq<Event> {
    seq(2 * k, i => if i % 2 == 0 then StatusQuery(ctx) else Wait(PollDelay))
  }

  /** Each pending round extends the events by one query and one wait. */
  lemma PendingEventsStep(k: nat, ctx: PollContext)
    requires k > 0
    ensures PendingEvents(k, ctx) == PendingEvents(k - 1, ctx) + [StatusQuery(ctx)] + [Wait(PollDelay)]
  {
    var a, b := PendingEvents(k, ctx), PendingEvents(k - 1, ctx) + [StatusQuery(ctx)] + [Wait(PollDelay)];
    assert |a| == |b|;
    forall i | 0 <= i < |a| ensures a[i] == b[i] {
      if i < 2 * k - 2 {
        assert b[i] == PendingEvents(k - 1, ctx)[i];
      }
    }
  }

  function AfterPending(k: nat, ctx: PollContext, results0: Option<Object>): PollState {
    PollState("pending", k, results0, PendingEvents(k, ctx), false)
  }

  predicate PendingPrefix(replies: seq<Call<StatusReply>>, k: nat) {
    k <= |replies| && forall i :: 0 <= i < k ==> IsPending(replies[i])
  }

  /** `k` pending replies within the budget leave the loop running, with one query and one
      wait per reply and the `results` slot untouched. */
  lemma {:induction false} SkipPending(replies: seq<Call<StatusReply>>, ctx: PollContext, parse: string -> Option<Json>, results0: Option<Object>, k: nat)
    requires k <= MaxAttempts && PendingPrefix(replies, k)
    ensures Loop(Start(results0), replies, ctx, parse) == Loop(AfterPending(k, ctx, results0), replies[k..], ctx, parse)
  {
    if k > 0 {
      SkipPending(replies, ctx, parse, results0, k - 1);
      var s := AfterPending(k - 1, ctx, results0);
      PendingEventsStep(k, ctx);
      assert replies[k - 1..][1..] == replies[k..];
      assert Iteration(s, replies[k - 1], ctx, parse) == AfterPending(k, ctx, results0);
    }
  }

  /** A non-pending reply at position `k` after `k` pending ones is the last reply the loop reads. */
  lemma StopAt(replies: seq<Call<StatusReply>>, ctx: PollContext, parse: string -> Option<Json>, results0: Option<Object>, k: nat)
    requires k < MaxAttempts && k < |replies| && PendingPrefix(replies, k) && !IsPending(replies[k])
    ensures PollTraining(replies, ctx, parse, results0) == Finish(Iteration(AfterPending(k, ctx, results0), replies[k], ctx, parse))
  {
    SkipPending(replies, ctx, parse, results0, k);
    assert replies[k..][1..] == replies[k + 1..];
  }

  function Min(a: nat, b: nat): nat { if a <= b then a else b }

  /** Past the budget or the replies given, with no reply but `pending` before, the loop has
      only queried and waited. */
  lemma PollRunsOut(replies: seq<Call<StatusReply>>, ctx: PollContext, parse: string -> Option<Json>, results0: Option<Object>)
    requires PendingPrefix(replies, Min(|replies|, MaxAttempts))
    ensures PollTraining(replies, ctx, parse, results0) == Finish(AfterPending(Min(|replies|, MaxAttempts), ctx, results0))
  {
    var k := Min(|replies|, MaxAttempts);
    SkipPending(replies, ctx, parse, results0, k);
    assert Loop(AfterPending(k, ctx, results0), replies[k..], ctx, parse) == AfterPending(k, ctx, results0);
  }

  /** The loop reads replies up to and including the first one that is not `pending`, never
      more than 900, and is left waiting only when the replies given are all `pending` and
      fewer than 900. */
  lemma PollAttempts(replies: seq<Call<StatusReply>>, ctx: PollContext, parse: string -> Option<Json>, results0: Option<Object>, f: nat)
    requires PendingPrefix(replies, f) && (f < |replies| ==> !IsPending(replies[f]))
    ensures PollTraining(replies, ctx, parse, results0).attempts == Min(Min(f + 1, |replies|), MaxAttempts)
    ensures !PollTraining(replies, ctx, parse, results0).ended <==> |replies| < MaxAttempts && f == |replies|
  {
    if f < MaxAttempts && f < |replies| {
      StopAt(replies, ctx, parse, results0, f);
    } else {
      PollRunsOut(replies, ctx, parse, results0);
    }
  }

  /** Every attempt issues exactly one status query. */
  lemma PollQueries(replies: seq<Call<StatusReply>>, ctx: PollContext, parse: string -> Option<Json>, results0: Option<Object>, f: nat)
    requires PendingPrefix(replies, f) && (f < |replies| ==> !IsPending(replies[f]))
    ensures var run := PollTraining(replies, ctx, parse, results0);
      multiset(run.events)[StatusQuery(ctx)] == run.attempts
  {
    if f < MaxAttempts && f < |replies| {
      StopAt(replies, ctx, parse, results0, f);
      PendingEventsFacts(f, ctx);
      var s := Iteration(AfterPending(f, ctx, results0), replies[f], ctx, parse);
      IterationQueries(AfterPending(f, ctx, results0), replies[f], ctx, parse);
      FinishQueries(s, ctx);
    } else {
      var k := Min(|replies|, MaxAttempts);
      PollRunsOut(replies, ctx, parse, results0);
      PendingEventsFacts(k, ctx);
      FinishQueries(AfterPending(k, ctx, results0), ctx);
    }
  }

  /** One pass adds one status query and one attempt. */
  lemma IterationQueries(s: PollState, reply: Call<StatusReply>, ctx: PollContext, parse: string -> Option<Json>)
    requires Looping(s) && multiset(s.events)[StatusQuery(ctx)] == s.attempts
    ensures var t := Iteration(s, reply, ctx, parse); multiset(t.events)[StatusQuery(ctx)] == t.attempts
  {
    var es := ReplyEvents(reply, ctx);
    assert multiset(es)[StatusQuery(ctx)] == 0;
    assert multiset(s.events + [StatusQuery(ctx)] + es) == multiset(s.events) + multiset([StatusQuery(ctx)]) + multiset(es);
  }

  /** The steps after the loop issue no status query. */
  lemma FinishQueries(s: PollState, ctx: PollContext)
    requires multiset(s.events)[StatusQuery(ctx)] == s.attempts
    ensures multiset(Finish(s).events)[StatusQuery(ctx)] == Finish(s).attempts
  {
    var tail := if s.raised then [Notify(PollErrorNotice, Error)] else if Looping(s) then [] else TimeoutTail(s.attempts);
    assert Finish(s).events == s.events + tail;
    assert multiset(tail)[StatusQuery(ctx)] == 0;
    assert multiset(s.events + tail) == multiset(s.events) + multiset(tail);
  }

  /** Pending rounds hold one status query each and no notice. */
  lemma {:induction false} PendingEventsFacts(k: nat, ctx: PollContext)
    ensures multiset(PendingEvents(k, ctx))[StatusQuery(ctx)] == k
    ensures forall e :: e in PendingEvents(k, ctx) ==> !e.Notify?
  {
    if k > 0 {
      PendingEventsFacts(k - 1, ctx);
      PendingEventsStep(k, ctx);
    } else {
      assert PendingEvents(k, ctx) == [];
    }
  }

  /** The `completed` reply with an inline result: the normalised result is stored, the
      success notice is issued and the loop ends; the timeout notice follows exactly when this
      was the 900th query. */
  lemma PollCompletedInline(replies: seq<Call<StatusReply>>, ctx: PollContext, parse: string -> Option<Json>, results0: Option<Object>, k: nat, r: Object)
    requires k < MaxAttempts && k < |replies| && PendingPrefix(replies, k)
    requires replies[k] == Answered(StatusReply("completed", Some(r)))
    ensures PollTraining(replies, ctx, parse, results0) ==
      PollRun(k + 1, true, Some(NormaliseResult(r, parse)),
              PendingEvents(k, ctx) + [StatusQuery(ctx)] + [Notify(CompletedNotice, Success)] + TimeoutTail(k + 1))
  {
    StopAt(replies, ctx, parse, results0, k);
  }

  /** Hence an inline result is announced exactly once. */
  lemma PollCompletedInlineNotices(replies: seq<Call<StatusReply>>, ctx: PollContext, parse: string -> Option<Json>, results0: Option<Object>, k: nat, r: Object)
    requires k < MaxAttempts && k < |replies| && PendingPrefix(replies, k)
    requires replies[k] == Answered(StatusReply("completed", Some(r)))
    ensures var run := PollTraining(replies, ctx, parse, results0);
      && multiset(run.events)[Notify(CompletedNotice, Success)] == 1
      && (Notify(TimeoutNotice, Error) in run.events <==> k + 1 == MaxAttempts)
  {
    PollCompletedInline(replies, ctx, parse, results0, k, r);
    PendingEventsFacts(k, ctx);
    assert Notify(CompletedNotice, Success) !in PendingEvents(k, ctx);
    assert Notify(TimeoutNotice, Error) !in PendingEvents(k, ctx);
  }

  /** A `failed` reply clears `results` and issues "Training failed"; the loop ends. */
  lemma PollFailed(replies: seq<Call<StatusReply>>, ctx: PollContext, parse: string -> Option<Json>, results0: Option<Object>, k: nat, result: Option<Object>)
    requires k < MaxAttempts && k < |replies| && PendingPrefix(replies, k)
    requires replies[k] == Answered(StatusReply("failed", result))
    ensures PollTraining(replies, ctx, parse, results0) ==
      PollRun(k + 1, true, None, PendingEvents(k, ctx) + [StatusQuery(ctx)] + [Notify(FailedNotice, Error)] + TimeoutTail(k + 1))
  {
    StopAt(replies, ctx, parse, results0, k);
  }

  /** Hence a failure is announced exactly once and never as a success. */
  lemma PollFailedNotices(replies: seq<Call<StatusReply>>, ctx: PollContext, parse: string -> Option<Json>, results0: Option<Object>, k: nat, result: Option<Object>)
    requires k < MaxAttempts && k < |replies| && PendingPrefix(replies, k)
    requires replies[k] == Answered(StatusReply("failed", result))
    ensures var run := PollTraining(replies, ctx, parse, results0);
      && multiset(run.events)[Notify(FailedNotice, Error)] == 1
      && Notify(CompletedNotice, Success) !in run.events
  {
    PollFailed(replies, ctx, parse, results0, k, result);
    PendingEventsFacts(k, ctx);
    assert Notify(FailedNotice, Error) !in PendingEvents(k, ctx);
    assert Notify(CompletedNotice, Success) !in PendingEvents(k, ctx);
  }

  /** A status query that raises ends polling in the `catch`: `results` is cleared and the
      error notice is the last event; the timeout check is skipped. */
  lemma PollQueryRaises(replies: seq<Call<StatusReply>>, ctx: PollContext, parse: string -> Option<Json>, results0: Option<Object>, k: nat, message: string)
    requires k < MaxAttempts && k < |replies| && PendingPrefix(replies, k)
    requires replies[k] == Threw(message)
    ensures PollTraining(replies, ctx, parse, results0) ==
      PollRun(k + 1, true, None, PendingEvents(k, ctx) + [StatusQuery(ctx)] + [Notify(PollErrorNotice, Error)])
  {
    StopAt(replies, ctx, parse, results0, k);
  }

  /** A `completed` reply without a result falls back to fetching the stored result after a
      short wait, and stores that result as it comes, without decoding its metrics; the
      success notice follows. */
  lemma PollCompletedFallback(replies: seq<Call<StatusReply>>, ctx: PollContext, parse: string -> Option<Json>, results0: Option<Object>, k: nat, fetched: FetchReply)
    requires k < MaxAttempts && k < |replies| && PendingPrefix(replies, k)
    requires replies[k] == Answered(StatusReply("completed", None))
    requires ctx.fallback == Answered(fetched)
    ensures PollTraining(replies, ctx, parse, results0) ==
      PollRun(k + 1, true, if fetched.result.Some? then fetched.result else results0,
              PendingEvents(k, ctx) + [StatusQuery(ctx)]
              + [Wait(FallbackDelay), Request(HttpGet, TrainEndpoint, ResultParams(ctx.user)), Notify(CompletedNotice, Success)]
              + TimeoutTail(k + 1))
  {
    StopAt(replies, ctx, parse, results0, k);
  }

  /** A fallback fetch that raises ends polling in the `catch`, with no success notice. */
  lemma PollFallbackRaises(replies: seq<Call<StatusReply>>, ctx: PollContext, parse: string -> Option<Json>, results0: Option<Object>, k: nat, message: string)
    requires k < MaxAttempts && k < |replies| && PendingPrefix(replies, k)
    requires replies[k] == Answered(StatusReply("completed", None))
    requires ctx.fallback == Threw(message)
    ensures PollTraining(replies, ctx, parse, results0) ==
      PollRun(k + 1, true, None,
              PendingEvents(k, ctx) + [StatusQuery(ctx)]
              + [Wait(FallbackDelay), Request(HttpGet, TrainEndpoint, ResultParams(ctx.user))]
              + [Notify(PollErrorNotice, Error)])
  {
    StopAt(replies, ctx, parse, results0, k);
  }

  /** The fallback path keeps an encoded metrics string where the inline path decodes it. */
  lemma FallbackKeepsEncodedMetrics(ctx: PollContext, parse: string -> Option<Json>, text: string)
    requires ctx.fallback == Answered(FetchReply(Some([Field("metrics", JString(text))])))
    ensures var inline := PollTraining([Answered(StatusReply("completed", Some([Field("metrics", JString(text))])))], ctx, parse, None);
      var fetched := PollTraining([Answered(StatusReply("completed", None))], ctx, parse, None);
      && fetched.results.Some? && Get(fetched.results.value, "metrics") == Some(JString(text))
      && inline.results.Some? && Get(inline.results.value, "metrics") == Some(parse(text).GetOr(JArray([])))
  {
    var r := [Field("metrics", JString(text))];
    assert Get(r, "metrics") == Some(JString(text));
    NormaliseResultFields(r, parse);
    PollCompletedInline([Answered(StatusReply("completed", Some(r)))], ctx, parse, None, 0, r);
    PollCompletedFallback([Answered(StatusReply("completed", None))], ctx, parse, None, 0, ctx.fallback.body);
  }

  /** Any other status waits once more and then leaves the loop without touching `results`. */
  lemma PollUnknownStatus(replies: seq<Call<StatusReply>>, ctx: PollContext, parse: string -> Option<Json>, results0: Option<Object>, k: nat, status: string, result: Option<Object>)
    requires k < MaxAttempts && k < |replies| && PendingPrefix(replies, k)
    requires replies[k] == Answered(StatusReply(status, result))
    requires status != "pending" && status != "completed" && status != "failed"
    ensures PollTraining(replies, ctx, parse, results0) ==
      PollRun(k + 1, true, results0, PendingEvents(k + 1, ctx) + TimeoutTail(k + 1))
  {
    StopAt(replies, ctx, parse, results0, k);
    PendingEventsStep(k + 1, ctx);
  }

  /** 900 pending replies exhaust the budget: 900 query-and-wait rounds, then the timeout
      notice, and `results` is left as it was. */
  lemma PollTimesOut(replies: seq<Call<StatusReply>>, ctx: PollContext, parse: string -> Option<Json>, results0: Option<Object>)
    requires PendingPrefix(replies, MaxAttempts)
    ensures PollTraining(replies, ctx, parse, results0) ==
      PollRun(MaxAttempts, true, results0, PendingEvents(MaxAttempts, ctx) + [Notify(TimeoutNotice, Error)])
  {
    SkipPending(replies, ctx, parse, results0, MaxAttempts);
  }

  /** The timeout notice appears exactly when the counter reached 900 and the last query did
      not raise, so a terminal 900th reply is followed by a timeout notice as well. */
  lemma PollTimeoutIff(replies: seq<Call<StatusReply>>, ctx: PollContext, parse: string -> Option<Json>, results0: Option<Object>, f: nat)
    requires PendingPrefix(replies, f) && (f < |replies| ==> !IsPending(replies[f]))
    ensures var run := PollTraining(replies, ctx, parse, results0);
      Notify(TimeoutNotice, Error) in run.events <==>
        |replies| >= MaxAttempts && run.attempts == MaxAttempts && !Raises(replies[MaxAttempts - 1], ctx)
  {
    if f < MaxAttempts && f < |replies| {
      StopAt(replies, ctx, parse, results0, f);
      PendingEventsFacts(f, ctx);
    } else {
      PollRunsOut(replies, ctx, parse, results0);
      PendingEventsFacts(Min(|replies|, MaxAttempts), ctx);
      if |replies| >= MaxAttempts {
        assert IsPending(replies[MaxAttempts - 1]);
      }
    }
  }

  /** The quirk of the timeout check: a `completed` 900th reply is reported both as a success
      and as a timeout. */
  lemma CompletedAtLastAttemptAlsoTimesOut(replies: seq<Call<StatusReply>>, ctx: PollContext, parse: string -> Option<Json>, r: Object)
    requires |replies| >= MaxAttempts && PendingPrefix(replies, MaxAttempts - 1)
    requires replies[MaxAttempts - 1] == Answered(StatusReply("completed", Some(r)))
    ensures var run := PollTraining(replies, ctx, parse, None);
      Notify(CompletedNotice, Success) in run.events && Notify(TimeoutNotice, Error) in run.events
  {
    PollCompletedInline(replies, ctx, parse, None, MaxAttempts - 1, r);
  }

  // ---------------------------------------------------------------------------------------
  // The form

  /** The model ids `MODEL_METADATA` offers per problem type. */
  function ModelIds(problemType: string): seq<string> {
    if problemType == "classification" then ["lr", "rf", "xgboost", "lightgbm"]
    else if problemType == "regression" then ["rf", "xgboost", "lightgbm", "lr"]
    else if problemType == "clustering" then ["kmeans"]
    else []
  }

  predicate IsProblemType(p: string) {
    p == "classification" || p == "regression" || p == "clustering"
  }

  /** `getAvailableTargets`. */
  function AvailableTargets(problemType: string, numerical: seq<string>, categorical: seq<string>): seq<string> {
    if problemType == "classification" then categorical
    else if problemType == "regression" then numerical
    else []
  }

  /** The enabling condition of the "Train Model" button. */
  predicate SubmitEnabled(loading: bool, problemType: string, model: string, target: string, features: seq<string>) {
    !(|| loading || problemType == "" || model == ""
      || (problemType != "clustering" && target == "")
      || (problemType == "clustering" && |features| == 0))
  }

  /** The body `handleSubmit` posts, as `JSON.stringify` sends it: `undefined` members are left
      out, and a `NaN` cluster count (from `parseInt`) is sent as `null`. */
  function TrainPayload(problemType: string, model: string, target: string, features: seq<string>,
                        nClusters: Option<int>, user: Option<User>): Object
  {
    [Field("type", JString(problemType)), Field("model", JString(model))]
    + (TargetField(problemType, target)
    + (FeaturesField(features)
    + (ClustersField(model, nClusters) + ResultParams(user))))
  }

  function TargetField(problemType: string, target: string): Object {
    if problemType != "clustering" then [Field("target", JString(target))] else []
  }

  function ClustersField(model: string, nClusters: Option<int>): Object {
    if model == "kmeans" then [Field("n_clusters", ClusterCount(nClusters))] else []
  }

  /** `parseInt` of the cluster field: a number, or `NaN`, which `JSON.stringify` writes as `null`. */
  function ClusterCount(nClusters: Option<int>): Json {
    if nClusters.Some? then JNumber(nClusters.value as real) else JNull
  }

  lemma OwnerFields(user: Option<User>)
    ensures forall k :: k in Keys(ResultParams(user)) ==> k == "project_id" || k == "user_id"
    ensures "user_id" in Keys(ResultParams(user)) <==> user.Some?
    ensures user.Some? ==> Get(ResultParams(user), "user_id") == Some(JNumber(user.value.userId as real))
  {
    if user.Some? {
      var pid := OptionalField("project_id", IdJson(user.value.projectId));
      var uid := [Field("user_id", JNumber(user.value.userId as real))];
      KeysConcat(pid, uid);
      GetConcat(pid, uid, "user_id");
    }
  }

  function FeaturesField(features: seq<string>): Object {
    [Field("features", JArray(seq(|features|, i requires 0 <= i < |features| => JString(features[i]))))]
  }

  /** The members after `type` and `model`, and the keys they hold. */
  lemma PayloadTail(problemType: string, model: string, target: string, features: seq<string>,
                    nClusters: Option<int>, user: Option<User>, k: string)
    requires k != "type" && k != "model"
    ensures var p := TrainPayload(problemType, model, target, features, nClusters, user);
      var tail := TargetField(problemType, target) + (FeaturesField(features) + (ClustersField(model, nClusters) + ResultParams(user)));
      && p == [Field("type", JString(problemType)), Field("model", JString(model))] + tail
      && Get(p, k) == Get(tail, k)
      && (k in Keys(p) <==> k in Keys(tail))
  {
    var head := [Field("type", JString(problemType)), Field("model", JString(model))];
    var tail := TargetField(problemType, target) + (FeaturesField(features) + (ClustersField(model, nClusters) + ResultParams(user)));
    KeysConcat(head, tail);
    GetConcat(head, tail, k);
  }

  /** What follows the target member holds no `target`. */
  lemma RestLacksTarget(model: string, features: seq<string>, nClusters: Option<int>, user: Option<User>)
    ensures "target" !in Keys(FeaturesField(features) + (ClustersField(model, nClusters) + ResultParams(user)))
  {
    KeysConcat(ClustersField(model, nClusters), ResultParams(user));
    KeysConcat(FeaturesField(features), ClustersField(model, nClusters) + ResultParams(user));
    OwnerFields(user);
  }

  lemma PayloadTarget(problemType: string, model: string, target: string, features: seq<string>,
                      nClusters: Option<int>, user: Option<User>)
    ensures var p := TrainPayload(problemType, model, target, features, nClusters, user);
      && ("target" in Keys(p) <==> problemType != "clustering")
      && (problemType != "clustering" ==> Get(p, "target") == Some(JString(target)))
  {
    PayloadTail(problemType, model, target, features, nClusters, user, "target");
    var rest := FeaturesField(features) + (ClustersField(model, nClusters) + ResultParams(user));
    var tgt := TargetField(problemType, target);
    RestLacksTarget(model, features, nClusters, user);
    KeysConcat(tgt, rest);
    if problemType != "clustering" {
      GetConcat(tgt, rest, "target");
    } else {
      assert tgt + rest == rest;
    }
  }

  lemma PayloadClusters(problemType: string, model: string, target: string, features: seq<string>,
                        nClusters: Option<int>, user: Option<User>)
    ensures var p := TrainPayload(problemType, model, target, features, nClusters, user);
      && ("n_clusters" in Keys(p) <==> model == "kmeans")
      && (model == "kmeans" ==> Get(p, "n_clusters") == Some(ClusterCount(nClusters)))
  {
    PayloadTail(problemType, model, target, features, nClusters, user, "n_clusters");
    var r3 := ClustersField(model, nClusters) + ResultParams(user);
    var r2 := FeaturesField(features) + r3;
    OwnerFields(user);
    KeysConcat(ClustersField(model, nClusters), ResultParams(user));
    KeysConcat(FeaturesField(features), r3);
    KeysConcat(TargetField(problemType, target), r2);
    GetConcat(TargetField(problemType, target), r2, "n_clusters");
    GetConcat(FeaturesField(features), r3, "n_clusters");
    GetConcat(ClustersField(model, nClusters), ResultParams(user), "n_clusters");
  }

  lemma PayloadOwner(problemType: string, model: string, target: string, features: seq<string>,
                     nClusters: Option<int>, user: Option<User>)
    ensures var p := TrainPayload(problemType, model, target, features, nClusters, user);
      && ("user_id" in Keys(p) <==> user.Some?)
      && (user.Some? ==> Get(p, "user_id") == Some(JNumber(user.value.userId as real)))
  {
    PayloadTail(problemType, model, target, features, nClusters, user, "user_id");
    var r3 := ClustersField(model, nClusters) + ResultParams(user);
    var r2 := FeaturesField(features) + r3;
    OwnerFields(user);
    KeysConcat(ClustersField(model, nClusters), ResultParams(user));
    KeysConcat(FeaturesField(features), r3);
    KeysConcat(TargetField(problemType, target), r2);
    GetConcat(TargetField(problemType, target), r2, "user_id");
    GetConcat(FeaturesField(features), r3, "user_id");
    GetConcat(ClustersField(model, nClusters), ResultParams(user), "user_id");
  }

  /** The members of the posted body: `target` exactly when the problem is not clustering,
      `n_clusters` exactly when the model is k-means, and the owner ids exactly when a user
      is signed in. */
  lemma TrainPayloadFields(problemType: string, model: string, target: string, features: seq<string>,
                           nClusters: Option<int>, user: Option<User>)
    ensures var p := TrainPayload(problemType, model, target, features, nClusters, user);
      && Get(p, "type") == Some(JString(problemType))
      && Get(p, "model") == Some(JString(model))
      && ("target" in Keys(p) <==> problemType != "clustering")
      && (problemType != "clustering" ==> Get(p, "target") == Some(JString(target)))
      && ("n_clusters" in Keys(p) <==> model == "kmeans")
      && (model == "kmeans" ==> Get(p, "n_clusters") == Some(ClusterCount(nClusters)))
      && ("user_id" in Keys(p) <==> user.Some?)
      && (user.Some? ==> Get(p, "user_id") == Some(JNumber(user.value.userId as real)))
  {
    PayloadTarget(problemType, model, target, features, nClusters, user);
    PayloadClusters(problemType, model, target, features, nClusters, user);
    PayloadOwner(problemType, model, target, features, nClusters, user);
  }

  /** An enabled submit for a problem with a target sends a column `getAvailableTargets`
      offered for it (categorical for classification, numerical for regression), so a target
      is never sent for a problem type outside the table. */
  lemma EnabledSubmitSendsOfferedTarget(loading: bool, problemType: string, model: string, target: string,
                                         features: seq<string>, nClusters: Option<int>, user: Option<User>,
                                         numerical: seq<string>, categorical: seq<string>)
    requires SubmitEnabled(loading, problemType, model, target, features)
    requires target != "" ==> target in AvailableTargets(problemType, numerical, categorical)
    ensures IsProblemType(problemType)
    ensures Get(TrainPayload(problemType, model, target, features, nClusters, user), "target") ==
              if problemType == "clustering" then None else Some(JString(target))
    ensures problemType == "classification" ==> target in categorical
    ensures problemType == "regression" ==> target in numerical
  {
    TrainPayloadFields(problemType, model, target, features, nClusters, user);
  }

  /** With the model chosen from the table, `n_clusters` is sent only for clustering, and a
      clustering payload never carries a target. */
  lemma ClusterCountOnlyForClustering(problemType: string, model: string, target: string, features: seq<string>,
                                      nClusters: Option<int>, user: Option<User>)
    requires model in ModelIds(problemType)
    ensures var p := TrainPayload(problemType, model, target, features, nClusters, user);
      ("n_clusters" in Keys(p) ==> problemType == "clustering" && "target" !in Keys(p))
  {
    PayloadClusters(problemType, model, target, features, nClusters, user);
    PayloadTarget(problemType, model, target, features, nClusters, user);
    if model == "kmeans" {
      KmeansOnlyForClustering(problemType);
    }
  }

  /** K-means is offered for clustering and nothing else. */
  lemma KmeansOnlyForClustering(problemType: string)
    requires "kmeans" in ModelIds(problemType)
    ensures problemType == "clustering"
  {
  }

  // ---------------------------------------------------------------------------------------
  // The page

  class TrainModelPage {
    const user: Option<User>
    const numericalColumns: seq<string>
    const categoricalColumns: seq<string>

    var loading: bool
    var results: Option<Object>
    var problemType: string
    var selectedModel: string
    var target: string
    var selectedFeatures: seq<string>
    var nClusters: Option<int>
    var log: seq<Event>

    /** The selections are ones the form's menus offer. */
    ghost predicate Valid()
      reads this
    {
      && (problemType == "" || IsProblemType(problemType))
      && (selectedModel != "" ==> selectedModel in ModelIds(problemType))
      && (target != "" ==> target in AvailableTargets(problemType, numericalColumns, categoricalColumns))
      && (forall f :: f in selectedFeatures ==> f in numericalColumns + categoricalColumns)
    }

    constructor (user: Option<User>, numericalColumns: seq<string>, categoricalColumns: seq<string>)
      ensures Valid()
      ensures this.user == user && this.numericalColumns == numericalColumns && this.categoricalColumns == categoricalColumns
      ensures !loading && results == None && problemType == "" && selectedModel == "" && target == ""
      ensures selectedFeatures == [] && nClusters == Some(3) && log == []
    {
      this.user := user;
      this.numericalColumns := numericalColumns;
      this.categoricalColumns := categoricalColumns;
      loading, results := false, None;
      problemType, selectedModel, target := "", "", "";
      selectedFeatures, nClusters, log := [], Some(3), [];
    }

    /** The problem-type menu: the model, the target and the features are cleared. */
    method ChangeProblemType(p: string)
      requires Valid() && IsProblemType(p)
      modifies this`problemType, this`selectedModel, this`target, this`selectedFeatures
      ensures Valid()
      ensures problemType == p && selectedModel == "" && target == "" && selectedFeatures == []
    {
      problemType := p;
      selectedModel := "";
      target := "";
      selectedFeatures := [];
    }

    method SelectModel(m: string)
      requires Valid() && m in ModelIds(problemType)
      modifies this`selectedModel
      ensures Valid() && selectedModel == m
    {
      selectedModel := m;
    }

    method SelectTarget(t: string)
      requires Valid() && t in AvailableTargets(problemType, numericalColumns, categoricalColumns)
      modifies this`target
      ensures Valid() && target == t
    {
      target := t;
    }

    method SelectFeatures(fs: seq<string>)
      requires Valid() && forall f :: f in fs ==> f in numericalColumns + categoricalColumns
      modifies this`selectedFeatures
      ensures Valid() && selectedFeatures == fs
    {
      selectedFeatures := fs;
    }

    /** `pollTrainingStatus(taskId, taskType)` answered by `replies`, one per status query, and
        by `fallback` for the stored-result fetch; `ended` is false when every reply was
        `pending` and the budget is not spent, so the loop is still waiting. */
    method PollTrainingStatus(taskId: string, taskType: string, replies: seq<Call<StatusReply>>,
                              fallback: Call<FetchReply>, parse: string -> Option<Json>)
      returns (attempts: nat, ended: bool)
      modifies this`results, this`log
      ensures var run := PollTraining(replies, PollContext(taskId, taskType, user, fallback), parse, old(results));
        && attempts == run.attempts && ended == run.ended
        && results == run.results && log == old(log) + run.events
    {
      var ctx := PollContext(taskId, taskType, user, fallback);
      ghost var start := log;
      ghost var st := Start(results);
      var status := "pending";
      var raised := false;
      attempts := 0;
      while !raised && status == "pending" && attempts < MaxAttempts && attempts < |replies|
        invariant attempts <= |replies|
        invariant st.status == status && st.attempts == attempts && st.raised == raised
        invariant st.results == results && log == start + st.events
        invariant Loop(Start(old(results)), replies, ctx, parse) == Loop(st, replies[attempts..], ctx, parse)
        decreases |replies| - attempts
      {
        var reply := replies[attempts];
        LoopStep(st, replies[attempts..], ctx, parse);
        assert replies[attempts..][1..] == replies[attempts + 1..];
        status, raised := PollOnce(reply, ctx, parse);
        ConcatAssoc(start, st.events + [StatusQuery(ctx)], ReplyEvents(reply, ctx));
        ConcatAssoc(start, st.events, [StatusQuery(ctx)]);
        st := Iteration(st, reply, ctx, parse);
        attempts := attempts + 1;
      }
      ended := FinishPoll(start, st, status, attempts, raised);
    }

    /** The code after the polling loop: the `catch` that clears `results` and shows the
        error notice, or the timeout check. */
    method FinishPoll(ghost start: seq<Event>, ghost final: PollState, status: string, attempts: nat, raised: bool)
      returns (ended: bool)
      requires final.status == status && final.attempts == attempts && final.raised == raised
      requires final.results == results && log == start + final.events
      modifies this`results, this`log
      ensures var run := Finish(final);
        && ended == run.ended && results == run.results && log == start + run.events
    {
      if raised {
        results := None;
        log := log + [Notify(PollErrorNotice, Error)];
        ended := true;
        assert log == start + (final.events + [Notify(PollErrorNotice, Error)]);
      } else if status == "pending" && attempts < MaxAttempts {
        ended := false;
      } else {
        ended := true;
        if attempts >= MaxAttempts {
          log := log + [Notify(TimeoutNotice, Error)];
        }
        assert log == start + (final.events + TimeoutTail(attempts));
      }
    }

    /** One pass of the polling loop's body on the reply to its status query. */
    method PollOnce(reply: Call<StatusReply>, ctx: PollContext, parse: string -> Option<Json>) returns (status: string, raised: bool)
      requires ctx.user == user
      modifies this`results, this`log
      ensures status == if reply.Threw? then "pending" else reply.body.status
      ensures raised == Raises(reply, ctx)
      ensures results == ReplyResults(old(results), reply, ctx, parse)
      ensures log == old(log) + [StatusQuery(ctx)] + ReplyEvents(reply, ctx)
    {
      status, raised := "pending", false;
      log := log + [StatusQuery(ctx)];
      if reply.Threw? {
        raised := true;
      } else {
        status := reply.body.status;
        if status == "completed" {
          if reply.body.result.Some? {
            results := Some(NormaliseResult(reply.body.result.value, parse));
            log := log + [Notify(CompletedNotice, Success)];
          } else {
            log := log + [Wait(FallbackDelay), Request(HttpGet, TrainEndpoint, ResultParams(user))];
            if ctx.fallback.Threw? {
              raised := true;
            } else {
              if ctx.fallback.body.result.Some? {
                results := ctx.fallback.body.result;
              }
              log := log + [Notify(CompletedNotice, Success)];
            }
          }
        } else if status == "failed" {
          results := None;
          log := log + [Notify(FailedNotice, Error)];
        } else {
          log := log + [Wait(PollDelay)];
        }
      }
    }

    /** `handleSubmit`: post the payload, then poll when a task id comes back, or store an
        inline result; a failing post clears `results`. `loading` is cleared in the `finally`
        block, so it stays set while the poll is still waiting for replies. */
    method HandleSubmit(reply: Call<SubmitReply>, replies: seq<Call<StatusReply>>,
                        fallback: Call<FetchReply>, parse: string -> Option<Json>)
      modifies this`loading, this`results, this`log
      ensures loading <==> (reply.Answered? && TruthyText(reply.body.taskId) &&
                            !PollTraining(replies, PollContext(reply.body.taskId.value, problemType, user, fallback), parse, old(results)).ended)
      ensures var post := Request(HttpPost, TrainEndpoint, TrainPayload(problemType, selectedModel, target, selectedFeatures, nClusters, user));
        match reply
        case Threw(_) =>
          results == None && log == old(log) + [post, Notify(FailedNotice, Error)]
        case Answered(b) =>
          if TruthyText(b.taskId) then
            var run := PollTraining(replies, PollContext(b.taskId.value, problemType, user, fallback), parse, old(results));
            results == run.results && log == old(log) + [post] + run.events
          else if b.result.Some? then
            results == Some(NormaliseResult(b.result.value, parse)) && log == old(log) + [post, Notify(CompletedNotice, Success)]
          else
            results == old(results) && log == old(log) + [post]
    {
      loading := true;
      var payload := TrainPayload(problemType, selectedModel, target, selectedFeatures, nClusters, user);
      log := log + [Request(HttpPost, TrainEndpoint, payload)];
      if reply.Threw? {
        log := log + [Notify(FailedNotice, Error)];
        results := None;
      } else if TruthyText(reply.body.taskId) {
        var _, ended := PollTrainingStatus(reply.body.taskId.value, problemType, replies, fallback, parse);
        if !ended {
          return;
        }
      } else if reply.body.result.Some? {
        results := Some(NormaliseResult(reply.body.result.value, parse));
        log := log + [Notify(CompletedNotice, Success)];
      }
      loading := false;
    }

    /** The mount effect that loads the user's last result: skipped without a project and a
        user id; a stored result is normalised, a missing one clears `results`. */
    method FetchExisting(reply: Call<FetchReply>, parse: string -> Option<Json>)
      modifies this`results, this`log
      ensures !(user.Some? && TruthyId(user.value.projectId) && user.value.userId != 0) ==>
                results == old(results) && log == old(log)
      ensures user.Some? && TruthyId(user.value.projectId) && user.value.userId != 0 ==>
                && match reply
                   case Threw(_) => results == None && log == old(log) + [Request(HttpGet, TrainEndpoint, ResultParams(user)), Notify(FetchErrorNotice, Error)]
                   case Answered(f) => log == old(log) + [Request(HttpGet, TrainEndpoint, ResultParams(user))] &&
                                       results == if f.result.Some? then Some(NormaliseResult(f.result.value, parse)) else None
    {
      if !(user.Some? && TruthyId(user.value.projectId) && user.value.userId != 0) {
        return;
      }
      log := log + [Request(HttpGet, TrainEndpoint, ResultParams(user))];
      if reply.Threw? {
        log := log + [Notify(FetchErrorNotice, Error)];
        results := None;
      } else if reply.body.result.Some? {
        results := Some(NormaliseResult(reply.body.result.value, parse));
      } else {
        results := None;
      }
    }
  }
}
