/** The AccessRequest value and its status history
    (api/ephemeral-access/v1alpha1/accessrequest_types.go). */
module Requests {
  import opened Prelude
  import opened Templates

  /** `Empty` is the zero value of the state field: the request was never initialised. */
  datatype State = Empty | Initiated | Requested | Granted | Expired | Denied | Invalid | Timeout

  datatype Entry = Entry(time: int, state: State, details: Option<string>)

  /** A role-template hash. The hash of a rendered template is taken to be injective,
      so it is the rendered template itself. */
  datatype Hash = NoHash | HashOf(template: Rendered)

  datatype Status = Status(
    state: State,
    target: string,
    expiresAt: Option<int>,
    hash: Hash,
    roleName: string,
    history: seq<Entry>)

  const FRESH := Status(Empty, "", None, NoHash, "", [])

  datatype Spec = Spec(duration: int, template: Ref, ordinal: int, app: Ref, user: string)

  /** A stored AccessRequest. `version` is its resource version, `deleting` says that it
      carries a deletion timestamp, `finalizer` that it carries the controller's finalizer. */
  datatype Request = Request(
    id: nat,
    version: nat,
    ns: string,
    created: int,
    deleting: bool,
    finalizer: bool,
    spec: Spec,
    status: Status)

  predicate Concluded(state: State) {
    state in {Denied, Expired, Invalid, Timeout}
  }

  predicate InFlight(state: State) {
    state == Requested || state == Granted
  }

  predicate Expiring(status: Status, now: int) {
    status.expiresAt.Some? && status.expiresAt.value < now
  }

  /** An empty message is stored as no details at all. */
  function DetailsOf(message: string): Option<string> {
    if message == "" then None else Some(message)
  }

  function Last(history: seq<Entry>): Entry
    requires history != []
  {
    history[|history| - 1]
  }

  predicate SameAsLast(history: seq<Entry>, state: State, message: string) {
    history != [] && Last(history).state == state && Last(history).details == DetailsOf(message)
  }

  /** What UpdateStatusHistory makes of a status at time `now`. */
  function Recorded(status: Status, duration: int, state: State, message: string, now: int): Status {
    var expiresAt :=
      if state == Granted && status.expiresAt.None? then Some(now + duration) else status.expiresAt;
    var history :=
      if SameAsLast(status.history, state, message) then
        status.history[|status.history| - 1 := Last(status.history).(time := now)]
      else
        status.history + [Entry(now, state, DetailsOf(message))];
    status.(state := state, expiresAt := expiresAt, history := history)
  }

  /** The most recent entry of the given state. */
  function LastFor(history: seq<Entry>, state: State): Option<Entry> {
    if history == [] then None
    else if Last(history).state == state then Some(Last(history))
    else LastFor(history[..|history| - 1], state)
  }

  function LastMessage(status: Status, state: State): string {
    match LastFor(status.history, state)
    case Some(Entry(_, _, Some(message))) => message
    case _ => ""
  }

  /** The test by which updateStatus decides that there is nothing to write. */
  predicate UpToDate(status: Status, state: State, message: string, hash: Hash) {
    status.state == state && status.hash == hash && LastMessage(status, state) == message
  }

  // ---------------------------------------------------------------- well-formedness

  predicate Adjacent(a: Entry, b: Entry) {
    (a.state != b.state || a.details != b.details) && a.time <= b.time
  }

  /** The history records the current state last, never the same (state, details) twice in a
      row, at non-decreasing times that are not in the future. */
  ghost predicate HistoryOk(status: Status, now: int) {
    && (status.state == Empty <==> status.history == [])
    && (status.history != [] ==> Last(status.history).state == status.state && Last(status.history).time <= now)
    && (forall i {:trigger status.history[i]} :: 0 <= i < |status.history| ==>
          status.history[i].details != Some("") && status.history[i].state != Empty)
    && (forall i, j {:trigger status.history[i], status.history[j]} ::
          0 <= i < j < |status.history| && j == i + 1 ==> Adjacent(status.history[i], status.history[j]))
  }

  /** `after` is `before` with one entry appended or only the time of its last entry rewritten. */
  ghost predicate HistoryGrows(before: seq<Entry>, after: seq<Entry>) {
    || after == before
    || (|after| == |before| + 1 && before == after[..|before|])
    || (before != [] && |after| == |before| && after[..|before| - 1] == before[..|before| - 1]
        && Last(after) == Last(before).(time := Last(after).time))
  }

  lemma RecordedHistory(status: Status, duration: int, state: State, message: string, now: int)
    requires HistoryOk(status, now) && state != Empty
    ensures HistoryOk(Recorded(status, duration, state, message, now), now)
    ensures HistoryGrows(status.history, Recorded(status, duration, state, message, now).history)
    ensures Last(Recorded(status, duration, state, message, now).history) == Entry(now, state, DetailsOf(message))
  {
    var after := Recorded(status, duration, state, message, now).history;
    var n := |status.history|;
    if SameAsLast(status.history, state, message) {
      assert after[..n - 1] == status.history[..n - 1];
    } else {
      assert after[..n] == status.history;
    }
  }

  /** In a well-formed history the by-state lookup of the current state is the last entry. */
  lemma CurrentMessageIsLast(status: Status, now: int)
    requires HistoryOk(status, now) && status.state != Empty
    ensures LastFor(status.history, status.state) == Some(Last(status.history))
    ensures DetailsOf(LastMessage(status, status.state)) == Last(status.history).details
  {
    assert status.history[|status.history| - 1] == Last(status.history);
  }

  /** The skip test agrees with the last entry, and recording makes it true: updating the same
      status twice writes once. */
  lemma UpdateIsIdempotent(status: Status, duration: int, state: State, message: string, hash: Hash, now: int)
    requires HistoryOk(status, now) && state != Empty
    ensures UpToDate(status, state, message, hash)
        <==> status.state == state && status.hash == hash && SameAsLast(status.history, state, message)
    ensures UpToDate(Recorded(status, duration, state, message, now).(hash := hash), state, message, hash)
  {
    if status.state == state { CurrentMessageIsLast(status, now); }
    RecordedHistory(status, duration, state, message, now);
    var after := Recorded(status, duration, state, message, now).(hash := hash);
    CurrentMessageIsLast(after, now);
  }

  lemma {:induction false} LastForFinds(history: seq<Entry>, state: State)
    ensures LastFor(history, state).None? <==> forall i :: 0 <= i < |history| ==> history[i].state != state
    ensures LastFor(history, state).Some? ==>
              exists i :: 0 <= i < |history| && history[i] == LastFor(history, state).value && history[i].state == state
                && forall j :: i < j < |history| ==> history[j].state != state
  {
    if history != [] && Last(history).state != state {
      var front := history[..|history| - 1];
      LastForFinds(front, state);
      assert forall i :: 0 <= i < |front| ==> front[i] == history[i];
      if LastFor(front, state).Some? {
        var i :| 0 <= i < |front| && front[i] == LastFor(front, state).value && front[i].state == state
          && forall j :: i < j < |front| ==> front[j].state != state;
        assert history[i] == LastFor(history, state).value;
      }
    } else if history != [] {
      assert history[|history| - 1] == LastFor(history, state).value;
    }
  }
}
