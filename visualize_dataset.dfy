/** The visualisation page: it submits a plot request, polls the plot job until it leaves
    `"pending"`, and keeps the list of generated plots. */
module VisualizeDataSet {
  import opened Wrappers
  import opened Json
  import opened Effects
  import PlotCard
  import PlotForm

  const PlotEndpoint := "/process/plot"
  const PlotStatusEndpoint := "/process/plot_status"
  const PlotPollDelay := 2000
  const GeneratedPlotType := "Generated Plot"
  const DefaultFailureMessage := "Failed to generate plot"
  const PollErrorMessage := "Error while polling plot status"
  const SubmitErrorMessage := "Failed to generate plot"

  /** One generated plot; `id` is the `Date.now()` of its arrival. */
  datatype Visualization = Visualization(id: int, plotType: string, image: Option<string>)

  /** The body of a `/process/plot_status` reply. */
  datatype PlotStatusReply = PlotStatusReply(status: string, image: Option<string>, message: Option<string>)

  /** The body of a `/process/plot` reply. */
  datatype PlotSubmitReply = PlotSubmitReply(taskId: Option<string>)

  function PlotQuery(taskId: string): Event {
    Request(HttpGet, PlotStatusEndpoint, [Field("plot_id", JString(taskId))])
  }

  predicate IsPending(reply: Call<PlotStatusReply>) {
    reply.Answered? && reply.body.status == "pending"
  }

  /** `response.data.message || "Failed to generate plot"`. */
  function FailureMessage(message: Option<string>): (m: string)
    ensures TruthyText(message) ==> m == message.value
    ensures !TruthyText(message) ==> m == DefaultFailureMessage
  {
    if TruthyText(message) then message.value else DefaultFailureMessage
  }

  /** What polling leaves behind: whether `pollPlotStatus` returned, the list, the `error`
      slot and the events issued. */
  datatype PlotRun = PlotRun(ended: bool, visualizations: seq<Visualization>, error: string, events: seq<Event>)

  /** `run` preceded by the events `es`. */
  function After(es: seq<Event>, run: PlotRun): PlotRun {
    PlotRun(run.ended, run.visualizations, run.error, es + run.events)
  }

  /** A reply that ends the loop, after its own status query: a new plot, the failure
      message, the `catch`, or (for any other status) the wait before the loop test fails. */
  function Settle(reply: Call<PlotStatusReply>, taskId: string, freshId: int, vis: seq<Visualization>, err: string): PlotRun
    requires !IsPending(reply)
  {
    match reply
    case Threw(_) => PlotRun(true, vis, PollErrorMessage, [PlotQuery(taskId)])
    case Answered(b) =>
      if b.status == "success" then
        PlotRun(true, vis + [Visualization(freshId, GeneratedPlotType, b.image)], err, [PlotQuery(taskId)])
      else if b.status == "failed" then PlotRun(true, vis, FailureMessage(b.message), [PlotQuery(taskId)])
      else PlotRun(true, vis, err, [PlotQuery(taskId), Wait(PlotPollDelay)])
  }

  /** `pollPlotStatus(taskId)` answered by `replies`, one per status query; there is no
      attempt bound, so running out of replies while pending leaves it waiting. */
  function PollPlot(replies: seq<Call<PlotStatusReply>>, taskId: string, freshId: int, vis: seq<Visualization>, err: string): PlotRun
    decreases |replies|
  {
    if replies == [] then PlotRun(false, vis, err, [])
    else if IsPending(replies[0]) then After([PlotQuery(taskId), Wait(PlotPollDelay)], PollPlot(replies[1..], taskId, freshId, vis, err))
    else Settle(replies[0], taskId, freshId, vis, err)
  }

  /** `k` pending rounds: a query and a two-second wait each. */
  function PlotPendingEvents(k: nat, taskId: string): seq<Event> {
    seq(2 * k, i => if i % 2 == 0 then PlotQuery(taskId) else Wait(PlotPollDelay))
  }

  predicate PendingPrefix(replies: seq<Call<PlotStatusReply>>, k: nat) {
    k <= |replies| && forall i :: 0 <= i < k ==> IsPending(replies[i])
  }

  lemma PlotPendingEventsCons(k: nat, taskId: string)
    ensures PlotPendingEvents(k + 1, taskId) == [PlotQuery(taskId), Wait(PlotPollDelay)] + PlotPendingEvents(k, taskId)
  {
    var a := PlotPendingEvents(k + 1, taskId);
    var b := [PlotQuery(taskId), Wait(PlotPollDelay)] + PlotPendingEvents(k, taskId);
    assert |a| == |b|;
    forall i | 0 <= i < |a| ensures a[i] == b[i] {
      if i >= 2 {
        assert b[i] == PlotPendingEvents(k, taskId)[i - 2];
      }
    }
  }

  /** The loop's outcome is decided by the first reply that is not pending, after one query
      and one wait for each pending reply before it, however many there are. */
  lemma {:induction false} PlotOutcome(replies: seq<Call<PlotStatusReply>>, taskId: string, freshId: int,
                                       vis: seq<Visualization>, err: string, f: nat)
    requires PendingPrefix(replies, f) && (f < |replies| ==> !IsPending(replies[f]))
    ensures PollPlot(replies, taskId, freshId, vis, err) ==
            if f == |replies| then PlotRun(false, vis, err, PlotPendingEvents(f, taskId))
            else After(PlotPendingEvents(f, taskId), Settle(replies[f], taskId, freshId, vis, err))
  {
    if f == 0 {
      assert PlotPendingEvents(0, taskId) == [];
      if replies != [] {
        assert After([], Settle(replies[0], taskId, freshId, vis, err)) == Settle(replies[0], taskId, freshId, vis, err);
      }
    } else {
      assert IsPending(replies[0]);
      assert PendingPrefix(replies[1..], f - 1) by {
        forall i | 0 <= i < f - 1 ensures IsPending(replies[1..][i]) {
          assert replies[1..][i] == replies[i + 1];
        }
      }
      if f < |replies| {
        assert replies[1..][f - 1] == replies[f];
      }
      PlotOutcome(replies[1..], taskId, freshId, vis, err, f - 1);
      PlotPendingEventsCons(f - 1, taskId);
    }
  }

  /** A `"success"` reply appends exactly one plot, carrying the reply's image, after all the
      existing ones; the `error` slot is untouched. */
  lemma PlotSucceeds(replies: seq<Call<PlotStatusReply>>, taskId: string, freshId: int,
                     vis: seq<Visualization>, err: string, f: nat)
    requires PendingPrefix(replies, f) && f < |replies|
    requires replies[f].Answered? && replies[f].body.status == "success"
    ensures var run := PollPlot(replies, taskId, freshId, vis, err);
      && run.ended
      && run.visualizations == vis + [Visualization(freshId, GeneratedPlotType, replies[f].body.image)]
      && run.error == err
      && run.events == PlotPendingEvents(f, taskId) + [PlotQuery(taskId)]
  {
    PlotOutcome(replies, taskId, freshId, vis, err, f);
  }

  /** A `"failed"` reply sets `error` to its message, or to the default when the message is
      falsy, and leaves the list alone. */
  lemma PlotFails(replies: seq<Call<PlotStatusReply>>, taskId: string, freshId: int,
                  vis: seq<Visualization>, err: string, f: nat)
    requires PendingPrefix(replies, f) && f < |replies|
    requires replies[f].Answered? && replies[f].body.status == "failed"
    ensures var run := PollPlot(replies, taskId, freshId, vis, err);
      && run.ended && run.visualizations == vis
      && run.error == (if TruthyText(replies[f].body.message) then replies[f].body.message.value else DefaultFailureMessage)
      && run.events == PlotPendingEvents(f, taskId) + [PlotQuery(taskId)]
  {
    PlotOutcome(replies, taskId, freshId, vis, err, f);
  }

  /** A status query that raises sets the polling error and leaves the list alone. */
  lemma PlotRaises(replies: seq<Call<PlotStatusReply>>, taskId: string, freshId: int,
                   vis: seq<Visualization>, err: string, f: nat)
    requires PendingPrefix(replies, f) && f < |replies| && replies[f].Threw?
    ensures var run := PollPlot(replies, taskId, freshId, vis, err);
      && run.ended && run.visualizations == vis && run.error == PollErrorMessage
      && run.events == PlotPendingEvents(f, taskId) + [PlotQuery(taskId)]
  {
    PlotOutcome(replies, taskId, freshId, vis, err, f);
  }

  /** Any other status ends the loop after the wait, changing nothing. */
  lemma PlotUnknownStatus(replies: seq<Call<PlotStatusReply>>, taskId: string, freshId: int,
                          vis: seq<Visualization>, err: string, f: nat)
    requires PendingPrefix(replies, f) && f < |replies| && replies[f].Answered?
    requires replies[f].body.status !in {"pending", "success", "failed"}
    ensures var run := PollPlot(replies, taskId, freshId, vis, err);
      && run.ended && run.visualizations == vis && run.error == err
      && run.events == PlotPendingEvents(f + 1, taskId)
  {
    PlotOutcome(replies, taskId, freshId, vis, err, f);
    PlotPendingEventsCons(f, taskId);
    assert PlotPendingEvents(f + 1, taskId) == PlotPendingEvents(f, taskId) + [PlotQuery(taskId), Wait(PlotPollDelay)] by {
      var a := PlotPendingEvents(f + 1, taskId);
      var b := PlotPendingEvents(f, taskId) + [PlotQuery(taskId), Wait(PlotPollDelay)];
      assert |a| == |b|;
      forall i | 0 <= i < |a| ensures a[i] == b[i] {
        if i < 2 * f {
          assert b[i] == PlotPendingEvents(f, taskId)[i];
        }
      }
    }
  }

  /** Pending replies keep the loop going without limit: with no settling reply it is still
      waiting after every one of them, whatever their number. */
  lemma PlotHasNoAttemptBound(replies: seq<Call<PlotStatusReply>>, taskId: string, freshId: int,
                              vis: seq<Visualization>, err: string)
    requires PendingPrefix(replies, |replies|)
    ensures var run := PollPlot(replies, taskId, freshId, vis, err);
      && !run.ended && run.visualizations == vis && run.error == err
      && multiset(run.events)[PlotQuery(taskId)] == |replies|
  {
    PlotOutcome(replies, taskId, freshId, vis, err, |replies|);
    PlotPendingQueries(|replies|, taskId);
  }

  lemma {:induction false} PlotPendingQueries(k: nat, taskId: string)
    ensures multiset(PlotPendingEvents(k, taskId))[PlotQuery(taskId)] == k
  {
    if k == 0 {
      assert PlotPendingEvents(0, taskId) == [];
    } else {
      PlotPendingQueries(k - 1, taskId);
      PlotPendingEventsCons(k - 1, taskId);
      assert multiset(PlotPendingEvents(k, taskId)) ==
             multiset([PlotQuery(taskId)]) + multiset([Wait(PlotPollDelay)]) + multiset(PlotPendingEvents(k - 1, taskId));
    }
  }

  /** Whatever the replies, the existing plots stay, in order, at the front of the list, and at
      most one plot is added. */
  lemma {:induction false} PlotKeepsExisting(replies: seq<Call<PlotStatusReply>>, taskId: string, freshId: int,
                                             vis: seq<Visualization>, err: string)
    ensures var run := PollPlot(replies, taskId, freshId, vis, err);
      && |vis| <= |run.visualizations| <= |vis| + 1
      && run.visualizations[..|vis|] == vis
  {
    if replies != [] && IsPending(replies[0]) {
      PlotKeepsExisting(replies[1..], taskId, freshId, vis, err);
    }
  }

  /** `handleDelete(id)`: `prev.filter(viz => viz.id !== id)`. */
  function WithoutId(vis: seq<Visualization>, id: int): (r: seq<Visualization>)
    ensures forall v :: v in r <==> v in vis && v.id != id
    ensures |r| <= |vis|
  {
    if vis == [] then []
    else (if vis[0].id != id then [vis[0]] else []) + WithoutId(vis[1..], id)
  }

  /** Filtering distributes over concatenation, so the entries kept stay in their order. */
  lemma {:induction false} WithoutIdConcat(a: seq<Visualization>, b: seq<Visualization>, id: int)
    ensures WithoutId(a + b, id) == WithoutId(a, id) + WithoutId(b, id)
  {
    if a == [] {
      assert a + b == b;
    } else {
      assert (a + b)[1..] == a[1..] + b;
      WithoutIdConcat(a[1..], b, id);
    }
  }

  /** Entries without the id are all kept, so deleting an id no plot carries changes nothing. */
  lemma {:induction false} WithoutAbsentId(vis: seq<Visualization>, id: int)
    requires forall i :: 0 <= i < |vis| ==> vis[i].id != id
    ensures WithoutId(vis, id) == vis
  {
    if vis != [] {
      WithoutAbsentId(vis[1..], id);
    }
  }

  /** Deleting twice is deleting once. */
  lemma WithoutIdIdempotent(vis: seq<Visualization>, id: int)
    ensures WithoutId(WithoutId(vis, id), id) == WithoutId(vis, id)
  {
    var r := WithoutId(vis, id);
    forall i | 0 <= i < |r| ensures r[i].id != id {
      assert r[i] in r;
    }
    WithoutAbsentId(r, id);
  }

  /** A template literal's rendering of an optional string. */
  function TemplateText(s: Option<string>): string {
    match s
    case Some(t) => t
    case None => "undefined"
  }

  /** The cards the page renders, one per plot, in list order. */
  function Cards(vis: seq<Visualization>): (cards: seq<PlotCard.Card>)
    ensures |cards| == |vis|
  {
    seq(|vis|, i requires 0 <= i < |vis| =>
      PlotCard.Card(vis[i].id, vis[i].plotType, PlotCard.PngPrefix + TemplateText(vis[i].image)))
  }

  /** The card of plot `i` shows its image as a PNG data URL, prefixed once, and its Delete
      button removes that plot and every other plot with its id, keeping all the rest. */
  lemma CardOfPlot(vis: seq<Visualization>, i: int)
    requires 0 <= i < |vis|
    ensures PlotCard.ImageSource(Cards(vis)[i].image) == PlotCard.PngPrefix + TemplateText(vis[i].image)
    ensures var kept := WithoutId(vis, PlotCard.DeleteArgument(Cards(vis)[i]));
      && vis[i] !in kept
      && forall v :: v in vis && v.id != vis[i].id ==> v in kept
  {
    PlotCard.ImageSourceOfPngUrl(TemplateText(vis[i].image));
  }

  /** `{ ...data, field: v }`; an `undefined` value is dropped when the body is serialised. */
  function SpreadField(o: Object, k: string, v: Option<Json>): Object {
    match v
    case Some(x) => Set(o, k, x)
    case None => o
  }

  /** The `/process/plot` body: the form's data with the user's ids spread over it. */
  function PlotRequest(data: Object, user: Option<User>): Object {
    var uid := if user.Some? then Some(JNumber(user.value.userId as real)) else None;
    var pid := if user.Some? then IdJson(user.value.projectId) else None;
    SpreadField(SpreadField(data, "user_id", uid), "project_id", pid)
  }

  lemma PlotRequestFields(data: Object, user: Option<User>)
    requires "user_id" !in Keys(data) && "project_id" !in Keys(data)
    ensures Get(PlotRequest(data, user), "user_id") == if user.Some? then Some(JNumber(user.value.userId as real)) else None
    ensures Get(PlotRequest(data, user), "project_id") == if user.Some? then IdJson(user.value.projectId) else None
    ensures forall k :: k != "user_id" && k != "project_id" ==> Get(PlotRequest(data, user), k) == Get(data, k)
  {
    var uid := if user.Some? then Some(JNumber(user.value.userId as real)) else None;
    var pid := if user.Some? then IdJson(user.value.projectId) else None;
    var o1 := SpreadField(data, "user_id", uid);
    forall j ensures Get(o1, j) == if j == "user_id" then uid else Get(data, j) {
      if uid.Some? { SetGet(data, "user_id", uid.value, j); }
    }
    forall j ensures Get(SpreadField(o1, "project_id", pid), j) == if j == "project_id" then pid else Get(o1, j) {
      if pid.Some? { SetGet(o1, "project_id", pid.value, j); }
      else { assert Get(o1, "project_id") == Get(data, "project_id") == None; }
    }
  }

  /** The request for a form submission carries the form's fields untouched and the user's
      ids beside them: the form never produces either id field. */
  lemma FormPlotRequest(t: string, x: string, y: string, hue: string, aggregation: string, user: Option<User>)
    ensures var body := PlotRequest(PlotForm.PlotData(t, x, y, hue, aggregation), user);
      && Get(body, "plotType") == Some(JString(t))
      && Get(body, "user_id") == (if user.Some? then Some(JNumber(user.value.userId as real)) else None)
      && Get(body, "project_id") == (if user.Some? then IdJson(user.value.projectId) else None)
      && forall k :: k != "user_id" && k != "project_id" ==> Get(body, k) == Get(PlotForm.PlotData(t, x, y, hue, aggregation), k)
  {
    PlotForm.PlotDataFields(t, x, y, hue, aggregation);
    PlotRequestFields(PlotForm.PlotData(t, x, y, hue, aggregation), user);
  }

  class VisualizeDataSetPage {
    const user: Option<User>

    var visualizations: seq<Visualization>
    var loading: bool
    var error: string
    var log: seq<Event>

    constructor (user: Option<User>)
      ensures this.user == user && visualizations == [] && !loading && error == "" && log == []
    {
      this.user := user;
      visualizations, loading, error, log := [], false, "", [];
    }

    /** `pollPlotStatus(taskId)` answered by `replies`; `freshId` is the `Date.now()` given to
        a new plot. `ended` is false when every reply was pending. */
    method PollPlotStatus(taskId: string, replies: seq<Call<PlotStatusReply>>, freshId: int) returns (ended: bool)
      modifies this`visualizations, this`error, this`log
      ensures var run := PollPlot(replies, taskId, freshId, old(visualizations), old(error));
        && ended == run.ended && visualizations == run.visualizations
        && error == run.error && log == old(log) + run.events
    {
      ghost var start := log;
      ghost var events: seq<Event> := [];
      var status := "pending";
      var stop := false;
      var i := 0;
      assert replies[0..] == replies;
      while status == "pending" && !stop && i < |replies|
        invariant i <= |replies| && log == start + events
        invariant status == "pending" && !stop ==>
          PollPlot(replies, taskId, freshId, old(visualizations), old(error)) ==
          After(events, PollPlot(replies[i..], taskId, freshId, visualizations, error))
        invariant !(status == "pending" && !stop) ==>
          PollPlot(replies, taskId, freshId, old(visualizations), old(error)) ==
          PlotRun(true, visualizations, error, events)
        decreases |replies| - i
      {
        var reply := replies[i];
        ghost var before := PollPlot(replies[i..], taskId, freshId, visualizations, error);
        ghost var settled := if IsPending(reply) then before else Settle(reply, taskId, freshId, visualizations, error);
        assert replies[i..][1..] == replies[i + 1..];
        i := i + 1;
        log := log + [PlotQuery(taskId)];
        if reply.Threw? {
          error := PollErrorMessage;
          stop := true;
        } else {
          status := reply.body.status;
          if status == "success" {
            visualizations := visualizations + [Visualization(freshId, GeneratedPlotType, reply.body.image)];
            stop := true;
          } else if status == "failed" {
            error := FailureMessage(reply.body.message);
            stop := true;
          } else {
            log := log + [Wait(PlotPollDelay)];
          }
        }
        ConcatAssoc(events, [PlotQuery(taskId)], [Wait(PlotPollDelay)]);
        if status == "pending" && !stop {
          ConcatAssoc(start, events, [PlotQuery(taskId), Wait(PlotPollDelay)]);
          ConcatAssoc(events, [PlotQuery(taskId), Wait(PlotPollDelay)], PollPlot(replies[i..], taskId, freshId, visualizations, error).events);
          events := events + [PlotQuery(taskId), Wait(PlotPollDelay)];
        } else {
          ConcatAssoc(start, events, settled.events);
          events := events + settled.events;
        }
      }
      ended := !(status == "pending" && !stop);
      if !ended {
        assert replies[i..] == [];
        assert events + [] == events;
      }
    }

    /** `handleFormSubmit(data)`: the error is cleared, the plot is requested, a truthy task id
        is polled; a failed request sets the submit error. `loading` is cleared in the `finally`
        block, so it stays set while the poll is still waiting for replies. */
    method HandleFormSubmit(data: Object, reply: Call<PlotSubmitReply>, replies: seq<Call<PlotStatusReply>>, freshId: int)
      modifies this`loading, this`visualizations, this`error, this`log
      ensures loading <==> (reply.Answered? && TruthyText(reply.body.taskId) &&
                            !PollPlot(replies, reply.body.taskId.value, freshId, old(visualizations), "").ended)
      ensures var post := Request(HttpPost, PlotEndpoint, PlotRequest(data, user));
        match reply
        case Threw(_) =>
          visualizations == old(visualizations) && error == SubmitErrorMessage && log == old(log) + [post]
        case Answered(b) =>
          if TruthyText(b.taskId) then
            var run := PollPlot(replies, b.taskId.value, freshId, old(visualizations), "");
            visualizations == run.visualizations && error == run.error && log == old(log) + [post] + run.events
          else
            visualizations == old(visualizations) && error == "" && log == old(log) + [post]
    {
      loading := true;
      error := "";
      log := log + [Request(HttpPost, PlotEndpoint, PlotRequest(data, user))];
      if reply.Threw? {
        error := SubmitErrorMessage;
      } else if TruthyText(reply.body.taskId) {
        var ended := PollPlotStatus(reply.body.taskId.value, replies, freshId);
        if !ended {
          return;
        }
      }
      loading := false;
    }

    /** `handleDelete(id)`. */
    method HandleDelete(id: int)
      modifies this`visualizations
      ensures visualizations == WithoutId(old(visualizations), id)
    {
      visualizations := WithoutId(visualizations, id);
    }
  }

}
