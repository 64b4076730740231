/**
 * The `connection.update` handler: whether a closed connection is followed by
 * a fresh start of the bot, and the ready notice when the connection opens.
 */
module Connection {
  import opened Wrappers

  /** Baileys' `DisconnectReason.loggedOut`: the session was logged out on the phone. */
  const LoggedOut: int := 401

  /** The `connection` field of an update. */
  datatype Phase = Connecting | Open | Close

  /** `output` of a Boom error. */
  datatype ErrorOutput = ErrorOutput(statusCode: Option<int>)

  /** The error attached to a disconnect; `output` is absent on errors that are not Boom errors. */
  datatype DisconnectError = DisconnectError(output: Option<ErrorOutput>)

  /** `lastDisconnect`: the error that ended the previous connection, if any. */
  datatype Disconnect = Disconnect(error: Option<DisconnectError>)

  /** One `connection.update` event; every field may be missing. */
  datatype Update = Update(connection: Option<Phase>, lastDisconnect: Option<Disconnect>)

  /** What the handler does with one update. */
  datatype Reaction =
    | Restart     // logs the decision and calls `startBot()` again
    | StayClosed  // logs the decision and does nothing more
    | Ready       // logs that the agent is ready
    | Ignore      // any other update

  /** `lastDisconnect?.error?.output?.statusCode`: absent as soon as one link of the chain is. */
  function StatusCode(d: Option<Disconnect>): (r: Option<int>)
    ensures r.Some? <==>
      d.Some? && d.value.error.Some? && d.value.error.value.output.Some?
      && d.value.error.value.output.value.statusCode.Some?
    ensures r.Some? ==> r == d.value.error.value.output.value.statusCode
  {
    match d
    case None => None
    case Some(disc) =>
      match disc.error
      case None => None
      case Some(err) =>
        match err.output
        case None => None
        case Some(out) => out.statusCode
  }

  /** `shouldReconnect`: the status code, missing or not, differs from `loggedOut`. */
  function ShouldReconnect(d: Option<Disconnect>): (r: bool)
    ensures !r ==> StatusCode(d).Some?
  {
    StatusCode(d) != Some(LoggedOut)
  }

  /** The handler for one update; `close` and `open` are tested one after the other, and at most one holds. */
  function React(u: Update): (r: Reaction)
    ensures r == Restart || r == StayClosed <==> u.connection == Some(Close)
    ensures r == Ready <==> u.connection == Some(Open)
  {
    if u.connection == Some(Close) then
      if ShouldReconnect(u.lastDisconnect) then Restart else StayClosed
    else if u.connection == Some(Open) then Ready
    else Ignore
  }

  /** A restart happens exactly on a close whose status code is anything but `loggedOut`, a missing one included. */
  lemma RestartIff(u: Update)
    ensures React(u) == Restart <==>
      u.connection == Some(Close) && StatusCode(u.lastDisconnect) != Some(LoggedOut)
  {
  }

  /** A close without a status code anywhere along the chain restarts the bot. */
  lemma MissingStatusRestarts(u: Update)
    requires u.connection == Some(Close)
    requires StatusCode(u.lastDisconnect) == None
    ensures React(u) == Restart
  {
  }

  /** A close after the session was logged out is final. */
  lemma LoggedOutStaysClosed(u: Update)
    requires u.connection == Some(Close)
    requires StatusCode(u.lastDisconnect) == Some(LoggedOut)
    ensures React(u) == StayClosed
  {
  }

  /** Opening, connecting and an update without `connection` never restart the bot. */
  lemma OnlyCloseRestarts(u: Update)
    requires u.connection != Some(Close)
    ensures React(u) != Restart && React(u) != StayClosed
  {
  }

  /** How many times a run of updates starts the bot again. */
  function Restarts(us: seq<Update>): (n: nat)
    ensures n <= |us|
  {
    if us == [] then 0
    else (if React(us[0]) == Restart then 1 else 0) + Restarts(us[1..])
  }

  /** Restarts add up over consecutive runs of updates. */
  lemma {:induction false} RestartsAppend(xs: seq<Update>, ys: seq<Update>)
    ensures Restarts(xs + ys) == Restarts(xs) + Restarts(ys)
  {
    if xs == [] {
      assert xs + ys == ys;
    } else {
      assert (xs + ys)[0] == xs[0];
      assert (xs + ys)[1..] == xs[1..] + ys;
      RestartsAppend(xs[1..], ys);
    }
  }

  /**
   * There is no retry limit and no delay: every close that is not a logout
   * restarts the bot, so a run of such closes restarts it once per update.
   */
  lemma {:induction false} EveryCloseRestarts(us: seq<Update>)
    requires forall i :: 0 <= i < |us| ==> us[i].connection == Some(Close)
    requires forall i :: 0 <= i < |us| ==> StatusCode(us[i].lastDisconnect) != Some(LoggedOut)
    ensures Restarts(us) == |us|
  {
    if us != [] {
      EveryCloseRestarts(us[1..]);
    }
  }

  /** A run that contains a logout close restarts strictly fewer times than it has updates. */
  lemma {:induction false} LogoutCostsARestart(us: seq<Update>, k: nat)
    requires k < |us|
    requires us[k].connection == Some(Close)
    requires StatusCode(us[k].lastDisconnect) == Some(LoggedOut)
    ensures Restarts(us) < |us|
  {
    if k == 0 {
      assert React(us[0]) == StayClosed;
    } else {
      LogoutCostsARestart(us[1..], k - 1);
    }
  }
}
